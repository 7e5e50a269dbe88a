/** Machine ids and addresses. */
module Addressing {
  import opened Bags
  import opened Messages
  import opened Pages
  import opened Sorting

  // Each node numbers the configured machines on its own.

  /** A configured machine. */
  datatype Machine = Machine(ip: string, port: string)

  function Key(m: Machine): string {
    m.ip + ":" + m.port
  }

  // ---- sorting keys ----

  predicate Before(a: string, b: string) {
    a == "" || (b != "" && (a[0] < b[0] || (a[0] == b[0] && Before(a[1..], b[1..]))))
  }

  lemma {:induction false} BeforeTotal(a: string, b: string)
    ensures Before(a, b) || Before(b, a)
  {
    if a == "" || b == "" || a[0] != b[0] {
    } else {
      BeforeTotal(a[1..], b[1..]);
    }
  }

  lemma {:induction false} BeforeSame(a: string, b: string)
    requires Before(a, b) && Before(b, a)
    ensures a == b
  {
    if a == "" {
    } else {
      BeforeSame(a[1..], b[1..]);
      assert a == [a[0]] + a[1..] && b == [b[0]] + b[1..];
    }
  }

  lemma {:induction false} BeforeTrans(a: string, b: string, c: string)
    requires Before(a, b) && Before(b, c)
    ensures Before(a, c)
  {
    if a == "" || a[0] != b[0] || b[0] != c[0] {
    } else {
      BeforeTrans(a[1..], b[1..], c[1..]);
    }
  }

  predicate Ascending(xs: seq<string>) {
    Sorted(xs, Before)
  }

  /** sort.Strings. */
  function SortStrings(xs: seq<string>): seq<string> {
    Sort(xs, Before)
  }

  lemma StringsOrdered()
    ensures Orders(Before)
  {
    forall a, b ensures Before(a, b) || Before(b, a) { BeforeTotal(a, b); }
    forall a, b, c | Before(a, b) && Before(b, c) ensures Before(a, c) { BeforeTrans(a, b, c); }
  }

  lemma SortStringsSorts(xs: seq<string>)
    ensures Ascending(SortStrings(xs)) && multiset(SortStrings(xs)) == multiset(xs)
  {
    StringsOrdered();
    SortSorts(xs, Before);
  }

  /** However the keys were listed, sorting them gives one result. */
  lemma SortedUnique(xs: seq<string>, ys: seq<string>)
    requires Ascending(xs) && Ascending(ys) && multiset(xs) == multiset(ys)
    ensures xs == ys
  {
    forall a, b | Before(a, b) && Before(b, a) ensures a == b { BeforeSame(a, b); }
    OneResult(xs, ys, Before);
  }

  // ---- machine ids ----

  datatype AddressManager = AddressManager(selfMachineId: string, machineInfo: map<string, Machine>)

  function Keys(machines: seq<Machine>): seq<string> {
    seq(|machines|, i requires 0 <= i < |machines| => Key(machines[i]))
  }

  /** Machines by key; a later one replaces an earlier one of the same key. */
  function Index(machines: seq<Machine>): (r: map<string, Machine>)
    ensures forall m :: m in machines ==> Key(m) in r
    ensures forall k :: k in r ==> r[k] in machines && Key(r[k]) == k
  {
    if machines == [] then map[]
    else
      var n := |machines| - 1;
      assert machines == machines[..n] + [machines[n]];
      Index(machines[..n])[Key(machines[n]) := machines[n]]
  }

  function Name(i: nat): string {
    "A" + Decimal(i)
  }

  lemma NameInjective(i: nat, j: nat)
    ensures Name(i) == Name(j) <==> i == j
    ensures Name(i) != "" && '.' !in Name(i)
  {
    assert Name(i)[1..] == Decimal(i) && Name(j)[1..] == Decimal(j);
    if Name(i) == Name(j) { DecimalInjective(i, j); }
    assert forall c :: c in Name(i) ==> c == 'A' || c in Decimal(i);
  }

  predicate Known(keys: seq<string>, index: map<string, Machine>) {
    forall k :: k in keys ==> k in index
  }

  function Named(keys: seq<string>, index: map<string, Machine>): map<string, Machine>
    requires Known(keys, index)
  {
    if keys == [] then map[]
    else
      var n := |keys| - 1;
      assert Known(keys[..n], index) && keys[n] in keys;
      Named(keys[..n], index)[Name(n) := index[keys[n]]]
  }

  /** The id of the last machine equal to `self`, or nothing. */
  function SelfId(keys: seq<string>, index: map<string, Machine>, self: Machine): string
    requires Known(keys, index)
  {
    if keys == [] then ""
    else
      var n := |keys| - 1;
      assert Known(keys[..n], index) && keys[n] in keys;
      if index[keys[n]] == self then Name(n) else SelfId(keys[..n], index, self)
  }

  lemma SortedKnown(machines: seq<Machine>)
    ensures Known(SortStrings(Keys(machines)), Index(machines))
  {
    SortStringsSorts(Keys(machines));
    forall k | k in SortStrings(Keys(machines)) ensures k in Index(machines) {
      assert k in multiset(SortStrings(Keys(machines))) && k in Keys(machines);
      var i :| 0 <= i < |machines| && Keys(machines)[i] == k;
      assert machines[i] in machines;
    }
  }

  lemma KnownSnoc(keys: seq<string>, index: map<string, Machine>, key: string, self: Machine)
    requires Known(keys, index) && key in index
    ensures Known(keys + [key], index)
    ensures Named(keys + [key], index) == Named(keys, index)[Name(|keys|) := index[key]]
    ensures SelfId(keys + [key], index, self) == if index[key] == self then Name(|keys|) else SelfId(keys, index, self)
  {
    assert (keys + [key])[..|keys|] == keys;
  }

  lemma IndexSnoc(machines: seq<Machine>, m: Machine)
    ensures Index(machines + [m]) == Index(machines)[Key(m) := m]
    ensures Keys(machines + [m]) == Keys(machines) + [Key(m)]
  {
    assert (machines + [m])[..|machines|] == machines;
  }

  function MachineInfo(machines: seq<Machine>): map<string, Machine> {
    SortedKnown(machines);
    Named(SortStrings(Keys(machines)), Index(machines))
  }

  function SelfMachineId(machines: seq<Machine>, self: Machine): string {
    SortedKnown(machines);
    SelfId(SortStrings(Keys(machines)), Index(machines), self)
  }

  /** GetSelfAddress: the configured own address, else the first machine of this host. */
  function SelfAddress(machines: seq<Machine>, selfRpc: Option<Machine>, localIp: string): Option<Machine> {
    if selfRpc.Some? then selfRpc
    else if machines == [] then None
    else if machines[0].ip == localIp then Some(machines[0])
    else SelfAddress(machines[1..], selfRpc, localIp)
  }

  /** Place `i` of the list is the first machine of this host. */
  predicate FirstOfHost(machines: seq<Machine>, localIp: string, i: int) {
    0 <= i < |machines| && machines[i].ip == localIp && forall j :: 0 <= j < i ==> machines[j].ip != localIp
  }

  /** No place after that of `id` holds `self`. */
  ghost predicate LastId(info: map<string, Machine>, id: string, self: Machine) {
    exists i: nat :: id == Name(i) && forall j: nat :: Name(j) in info && info[Name(j)] == self ==> j <= i
  }

  /** The manager knows all machines, and itself by the last id of `self`; there is no manager exactly
      when the numbering does not hold that address. */
  ghost predicate Identifies(r: Option<AddressManager>, machines: seq<Machine>, self: Machine) {
    && (r.Some? <==> exists id :: id in MachineInfo(machines) && MachineInfo(machines)[id] == self)
    && (r.Some? ==>
          && r.value.machineInfo == MachineInfo(machines)
          && r.value.selfMachineId in r.value.machineInfo && r.value.machineInfo[r.value.selfMachineId] == self
          && LastId(r.value.machineInfo, r.value.selfMachineId, self))
  }

  lemma {:induction false} OwnAddress(machines: seq<Machine>, selfRpc: Option<Machine>, localIp: string)
    ensures selfRpc.Some? ==> SelfAddress(machines, selfRpc, localIp) == selfRpc
    ensures selfRpc.None? && SelfAddress(machines, selfRpc, localIp).None? ==> forall m :: m in machines ==> m.ip != localIp
    ensures selfRpc.None? && SelfAddress(machines, selfRpc, localIp).Some? ==>
              && (exists m :: m in machines && m.ip == localIp)
              && forall i :: FirstOfHost(machines, localIp, i) ==> SelfAddress(machines, selfRpc, localIp).value == machines[i]
  {
    if selfRpc.Some? || machines == [] {
    } else {
      var rest := machines[1..];
      OwnAddress(rest, selfRpc, localIp);
      assert machines == [machines[0]] + rest;
      if machines[0].ip != localIp {
        forall i | FirstOfHost(machines, localIp, i) ensures FirstOfHost(rest, localIp, i - 1) && machines[i] == rest[i - 1] {
          forall j | 0 <= j < i - 1 ensures rest[j].ip != localIp { assert rest[j] == machines[j + 1]; }
        }
      }
    }
  }

  lemma Owns(machines: seq<Machine>, self: Machine)
    ensures var id := SelfMachineId(machines, self);
            && (id != "" <==> exists k :: k in MachineInfo(machines) && MachineInfo(machines)[k] == self)
            && (id != "" ==> id in MachineInfo(machines) && MachineInfo(machines)[id] == self && LastId(MachineInfo(machines), id, self))
  {
    var keys, index := SortStrings(Keys(machines)), Index(machines);
    SortedKnown(machines);
    var i := SelfIdPlace(keys, index, self);
    var info := MachineInfo(machines);
    assert info == Named(keys, index) && SelfMachineId(machines, self) == SelfId(keys, index, self);
    hide Name, Key, Index, Keys, SortStrings, Named, SelfId, MachineInfo, SelfMachineId;
    if SelfMachineId(machines, self) != "" {
      NamedAt(keys, index, i);
      assert Name(i) in info && info[Name(i)] == self;
      forall j: nat | Name(j) in info && info[Name(j)] == self ensures j <= i {
        var k := NamedPlace(keys, index, Name(j));
        NameInjective(j, k);
      }
    } else {
      forall k | k in Named(keys, index) ensures Named(keys, index)[k] != self {
        var j := NamedPlace(keys, index, k);
        assert keys[j] in keys;
      }
    }
  }

  const LOCAL_NAME := "local"

  /** NewAddressManager; `port` is the free port found, if any. A single node has no machine list. */
  method NewAddressManager(machines: seq<Machine>, selfRpc: Option<Machine>, localIp: string, port: Option<string>)
    returns (r: Option<AddressManager>)
    ensures port.None? ==> r.None?
    ensures port.Some? && machines == [] ==>
              r == Some(AddressManager(LOCAL_NAME, map[LOCAL_NAME := Machine("127.0.0.1", port.value)]))
    ensures port.Some? && machines != [] ==>
              var self := SelfAddress(machines, selfRpc, localIp);
              && (r.None? <==> self.None? || SelfMachineId(machines, self.value) == "")
              && (r.Some? ==> r.value == AddressManager(SelfMachineId(machines, self.value), MachineInfo(machines)))
    ensures port.Some? && machines != [] && selfRpc.Some? ==> Identifies(r, machines, selfRpc.value)
    ensures port.Some? && machines != [] && selfRpc.None? ==>
              && (forall i :: FirstOfHost(machines, localIp, i) ==> Identifies(r, machines, machines[i]))
              && ((forall m :: m in machines ==> m.ip != localIp) ==> r.None?)
  {
    OwnAddress(machines, selfRpc, localIp);
    if port.None? { return None; }
    if |machines| == 0 {
      return Some(AddressManager(LOCAL_NAME, map[LOCAL_NAME := Machine("127.0.0.1", port.value)]));
    }
    var selfAddress := SelfAddress(machines, selfRpc, localIp);
    if selfAddress.None? { return None; }
    Owns(machines, selfAddress.value);
    var rm, keys := IndexMachines(machines);
    SortedKnown(machines);
    var nAddress, selfId := NameMachines(SortStrings(keys), rm, selfAddress.value);
    if selfId == "" { return None; }
    return Some(AddressManager(selfId, nAddress));
  }

  method IndexMachines(machines: seq<Machine>) returns (rm: map<string, Machine>, a: seq<string>)
    ensures rm == Index(machines) && a == Keys(machines)
  {
    hide Key, Keys, Index;
    NoneIndexed();
    rm, a := map[], [];
    for i := 0 to |machines|
      invariant rm == Index(machines[..i]) && a == Keys(machines[..i])
    {
      IndexSnoc(machines[..i], machines[i]);
      assert machines[..i + 1] == machines[..i] + [machines[i]];
      rm := rm[Key(machines[i]) := machines[i]];
      a := a + [Key(machines[i])];
    }
    assert machines[..|machines|] == machines;
  }

  method NameMachines(keys: seq<string>, rm: map<string, Machine>, self: Machine)
    returns (nAddress: map<string, Machine>, selfId: string)
    requires Known(keys, rm)
    ensures nAddress == Named(keys, rm) && selfId == SelfId(keys, rm, self)
  {
    hide Known, Named, SelfId, Name;
    NoneNamed(rm, self);
    nAddress, selfId := map[], "";
    for i := 0 to |keys|
      invariant Known(keys[..i], rm) && nAddress == Named(keys[..i], rm) && selfId == SelfId(keys[..i], rm, self)
    {
      KnownKey(keys, rm, i);
      KnownSnoc(keys[..i], rm, keys[i], self);
      assert keys[..i + 1] == keys[..i] + [keys[i]];
      nAddress := nAddress[Name(i) := rm[keys[i]]];
      if rm[keys[i]] == self { selfId := Name(i); }
    }
    assert keys[..|keys|] == keys;
  }

  lemma KnownKey(keys: seq<string>, index: map<string, Machine>, i: nat)
    requires Known(keys, index) && i < |keys|
    ensures keys[i] in index
  {
    assert keys[i] in keys;
  }

  lemma NoneIndexed()
    ensures Index([]) == map[] && Keys([]) == []
  {
  }

  lemma NoneNamed(index: map<string, Machine>, self: Machine)
    ensures Known([], index) && Named([], index) == map[] && SelfId([], index, self) == ""
  {
  }

  // ---- every node builds the same map ----

  /** No two listed machines print the same key. */
  predicate KeysIdentify(machines: seq<Machine>) {
    forall a, b :: a in machines && b in machines && Key(a) == Key(b) ==> a == b
  }

  lemma SameIndex(a: seq<Machine>, b: seq<Machine>)
    requires multiset(a) == multiset(b) && KeysIdentify(a)
    ensures Index(a) == Index(b)
  {
    forall m | m in a ensures m in b { assert m in multiset(a); }
    forall m | m in b ensures m in a { assert m in multiset(b); }
    forall k | k in Index(a) ensures k in Index(b) && Index(a)[k] == Index(b)[k] { assert Index(a)[k] in b; }
    forall k | k in Index(b) ensures k in Index(a) { assert Index(b)[k] in a; }
  }

  lemma KeysWithout(b: seq<Machine>, k: nat)
    requires k < |b|
    ensures multiset(b) == multiset(b[..k] + b[k + 1..]) + multiset{b[k]}
    ensures multiset(Keys(b)) == multiset(Keys(b[..k] + b[k + 1..])) + multiset{Key(b[k])}
  {
    hide Key;
    assert b == b[..k] + [b[k]] + b[k + 1..];
    assert Keys(b) == Keys(b)[..k] + [Key(b[k])] + Keys(b)[k + 1..];
    assert Keys(b[..k] + b[k + 1..]) == Keys(b)[..k] + Keys(b)[k + 1..];
  }

  lemma {:induction false} SameKeyBag(a: seq<Machine>, b: seq<Machine>)
    requires multiset(a) == multiset(b)
    ensures multiset(Keys(a)) == multiset(Keys(b))
    decreases |a|
  {
    hide Key;
    assert |a| == |multiset(a)| == |multiset(b)| == |b|;
    if a == [] {
    } else {
      hide Keys;
      assert a[0] in multiset(b);
      var k :| 0 <= k < |b| && b[k] == a[0];
      var rest, others := a[..0] + a[1..], b[..k] + b[k + 1..];
      KeysWithout(a, 0);
      KeysWithout(b, k);
      BagCancel(multiset(rest), multiset(others), a[0]);
      SameKeyBag(rest, others);
    }
  }

  lemma SameSortedKeys(a: seq<Machine>, b: seq<Machine>)
    requires multiset(a) == multiset(b)
    ensures SortStrings(Keys(a)) == SortStrings(Keys(b))
  {
    SameKeyBag(a, b);
    SortStringsSorts(Keys(a));
    SortStringsSorts(Keys(b));
    SortedUnique(SortStrings(Keys(a)), SortStrings(Keys(b)));
  }

  lemma {:induction false} NamedAt(keys: seq<string>, index: map<string, Machine>, i: nat)
    requires Known(keys, index) && i < |keys|
    ensures Name(i) in Named(keys, index) && Named(keys, index)[Name(i)] == index[keys[i]]
  {
    var n := |keys| - 1;
    assert keys == keys[..n] + [keys[n]];
    if i < n {
      NamedAt(keys[..n], index, i);
      NameInjective(i, n);
    }
  }

  lemma {:induction false} NamedPlace(keys: seq<string>, index: map<string, Machine>, id: string) returns (i: nat)
    requires Known(keys, index) && id in Named(keys, index)
    ensures i < |keys| && id == Name(i) && Named(keys, index)[id] == index[keys[i]]
  {
    assert keys != [];
    var n := |keys| - 1;
    assert keys == keys[..n] + [keys[n]];
    if id == Name(n) { i := n; } else { i := NamedPlace(keys[..n], index, id); }
  }

  /** Place `i` of the numbering holds the machine listed last under the key of that place. */
  predicate LastOfKey(machines: seq<Machine>, key: string, m: Machine) {
    Key(m) == key && forall j :: 0 <= j < |machines| && Key(machines[j]) == key && machines[j] != m ==>
                       exists k :: j < k < |machines| && machines[k] == m
  }

  /** The numbering: ids A0, A1, .. for as many machines as are listed, in the order of their keys. Every
      key is numbered as often as it is listed, and names the machine listed last under it. */
  lemma InfoNumbered(machines: seq<Machine>) returns (keys: seq<string>)
    ensures multiset(keys) == multiset(Keys(machines)) && forall i, j :: 0 <= i < j < |keys| ==> Before(keys[i], keys[j])
    ensures forall i: nat :: Name(i) == "A" + Decimal(i)
    ensures forall id :: id in MachineInfo(machines) ==> exists i: nat :: i < |machines| && id == Name(i)
    ensures |keys| == |machines|
    ensures forall i: nat :: i < |machines| ==>
              Name(i) in MachineInfo(machines) && LastOfKey(machines, keys[i], MachineInfo(machines)[Name(i)])
  {
    hide MachineInfo, SortStrings, Keys, LastOfKey, Decimal, Before;
    keys := SortStrings(Keys(machines));
    KeysAscend(machines);
    forall i: nat | i < |machines| ensures Name(i) in MachineInfo(machines) && LastOfKey(machines, keys[i], MachineInfo(machines)[Name(i)]) {
      InfoAt(machines, i);
    }
    forall id | id in MachineInfo(machines) ensures exists i: nat :: i < |machines| && id == Name(i) {
      var i := InfoPlace(machines, id);
    }
  }

  lemma KeysAscend(machines: seq<Machine>)
    ensures var keys := SortStrings(Keys(machines));
            && multiset(keys) == multiset(Keys(machines)) && |keys| == |machines|
            && forall i, j :: 0 <= i < j < |keys| ==> Before(keys[i], keys[j])
  {
    var keys := SortStrings(Keys(machines));
    SortStringsSorts(Keys(machines));
    assert |keys| == |multiset(keys)| == |Keys(machines)|;
    assert Sorted(keys, Before);
  }

  lemma InfoAt(machines: seq<Machine>, i: nat)
    requires i < |machines| == |SortStrings(Keys(machines))|
    ensures Name(i) in MachineInfo(machines)
    ensures LastOfKey(machines, SortStrings(Keys(machines))[i], MachineInfo(machines)[Name(i)])
  {
    var keys, index := SortStrings(Keys(machines)), Index(machines);
    SortedKnown(machines);
    hide SortStrings, Keys, LastOfKey, Name, Index;
    NamedAt(keys, index, i);
    KnownKey(keys, index, i);
    IndexLast(machines, keys[i]);
  }

  lemma InfoPlace(machines: seq<Machine>, id: string) returns (i: nat)
    requires id in MachineInfo(machines)
    ensures i < |machines| && id == Name(i)
  {
    SortedKnown(machines);
    KeysAscend(machines);
    hide SortStrings, Keys, Name, Index;
    i := NamedPlace(SortStrings(Keys(machines)), Index(machines), id);
  }

  lemma IndexLast(machines: seq<Machine>, key: string)
    requires key in Index(machines)
    ensures LastOfKey(machines, key, Index(machines)[key])
  {
    var m := Index(machines)[key];
    hide Index, Key;
    forall j | 0 <= j < |machines| && Key(machines[j]) == key && machines[j] != m
      ensures exists k :: j < k < |machines| && machines[k] == m
    {
      var k := LastListed(machines, j);
    }
  }

  lemma {:induction false} LastListed(machines: seq<Machine>, j: nat) returns (k: nat)
    requires j < |machines|
    ensures j <= k < |machines| && Key(machines[j]) in Index(machines) && Index(machines)[Key(machines[j])] == machines[k]
  {
    hide Key;
    var n := |machines| - 1;
    assert machines == machines[..n] + [machines[n]];
    if Key(machines[j]) == Key(machines[n]) { k := n; } else { k := LastListed(machines[..n], j); }
  }

  /** The own id, if there is one, is the name of a place where the own address is listed. */
  lemma {:induction false} SelfIdPlace(keys: seq<string>, index: map<string, Machine>, self: Machine) returns (i: nat)
    requires Known(keys, index)
    ensures SelfId(keys, index, self) == "" ==> forall k :: k in keys ==> index[k] != self
    ensures SelfId(keys, index, self) != "" ==>
              && i < |keys| && SelfId(keys, index, self) == Name(i) && index[keys[i]] == self
              && forall j :: i < j < |keys| ==> index[keys[j]] != self
  {
    i := 0;
    if keys == [] {
    } else {
      hide Name;
      var n := |keys| - 1;
      assert keys == keys[..n] + [keys[n]];
      NameInjective(n, n);
      if index[keys[n]] == self { i := n; } else { i := SelfIdPlace(keys[..n], index, self); }
    }
  }

  /** Nodes configured with the same machines, listed in any order, number them alike; each finds an
      id for its own address that names it; and two nodes have the same id exactly when they have the
      same address. */
  lemma ClusterAgreement(a: seq<Machine>, b: seq<Machine>, s: Machine, t: Machine)
    requires multiset(a) == multiset(b) && KeysIdentify(a) && s in a && t in b
    ensures MachineInfo(a) == MachineInfo(b)
    ensures var id := SelfMachineId(a, s);
            id != "" && '.' !in id && id in MachineInfo(b) && MachineInfo(b)[id] == s
    ensures SelfMachineId(a, s) == SelfMachineId(b, t) <==> s == t
  {
    hide MachineInfo, SelfMachineId;
    SameMap(a, b);
    OwnId(a, s);
    SameSelf(a, b, t);
    OwnId(a, t);
  }

  lemma SameSelf(a: seq<Machine>, b: seq<Machine>, t: Machine)
    requires multiset(a) == multiset(b) && KeysIdentify(a) && t in b
    ensures SelfMachineId(a, t) == SelfMachineId(b, t) && t in a
  {
    assert t in multiset(b);
    SameIndex(a, b);
    SameSortedKeys(a, b);
    SortedKnown(a);
    SortedKnown(b);
  }

  lemma OwnId(a: seq<Machine>, s: Machine)
    requires KeysIdentify(a) && s in a
    ensures var id := SelfMachineId(a, s); id != "" && '.' !in id && id in MachineInfo(a) && MachineInfo(a)[id] == s
  {
    var keys := SortStrings(Keys(a));
    SortedKnown(a);
    SortStringsSorts(Keys(a));
    var k :| 0 <= k < |a| && a[k] == s;
    assert Keys(a)[k] == Key(s) && Key(s) in multiset(Keys(a)) && Key(s) in keys;
    assert Index(a)[Key(s)] == s;
    var i := SelfIdPlace(keys, Index(a), s);
    NameInjective(i, i);
    NamedAt(keys, Index(a), i);
  }

  // ---- addresses as text ----

  /** strings.Split at dots. */
  function Split(s: string): (r: seq<string>)
    ensures r != []
  {
    if s == "" then [""]
    else
      var rest := Split(s[1..]);
      if s[0] == '.' then [""] + rest else [[s[0]] + rest[0]] + rest[1..]
  }

  function Dots(s: string): nat {
    if s == "" then 0 else (if s[0] == '.' then 1 else 0) + Dots(s[1..])
  }

  lemma {:induction false} SplitCount(s: string)
    ensures |Split(s)| == Dots(s) + 1
  {
    if s == "" {
    } else {
      SplitCount(s[1..]);
    }
  }

  lemma {:induction false} SplitPlain(s: string)
    ensures '.' !in s <==> Dots(s) == 0
    ensures '.' !in s ==> Split(s) == [s]
  {
    if s == "" {
    } else {
      SplitPlain(s[1..]);
      assert s == [s[0]] + s[1..];
    }
  }

  lemma {:induction false} SplitAt(a: string, b: string)
    requires '.' !in a
    ensures Split(a + "." + b) == [a] + Split(b)
  {
    var s := a + "." + b;
    if a == "" {
      assert s[1..] == b;
    } else {
      assert a == [a[0]] + a[1..];
      assert s[1..] == a[1..] + "." + b;
      SplitAt(a[1..], b);
    }
  }

  lemma {:induction false} DotsConcat(a: string, b: string)
    ensures Dots(a + b) == Dots(a) + Dots(b)
  {
    if a == "" {
      assert a + b == b;
    } else {
      assert (a + b)[1..] == a[1..] + b;
      DotsConcat(a[1..], b);
    }
  }

  datatype Address = Address(id: string, machineId: string, localId: string)

  function NewAddressID(localId: string, machineId: string): string {
    localId + "." + machineId
  }

  /** GeneratorConnectionAddress and GeneratorRoomAddress, for a fresh local id. */
  function GeneratorAddress(m: AddressManager, localId: string): Address {
    Address(NewAddressID(localId, m.selfMachineId), m.selfMachineId, localId)
  }

  function NewAddressFromID(id: string): Option<Address> {
    var words := Split(id);
    if |words| != 2 then None else Some(Address(id, words[1], words[0]))
  }

  lemma {:induction false} SplitTwo(s: string)
    requires |Split(s)| == 2
    ensures s == Split(s)[0] + "." + Split(s)[1]
    ensures '.' !in Split(s)[0] && '.' !in Split(s)[1]
  {
    SplitCount(s);
    if s[0] == '.' {
      SplitCount(s[1..]);
      SplitPlain(s[1..]);
      assert s == "" + "." + s[1..];
    } else {
      SplitTwo(s[1..]);
      assert s == [s[0]] + s[1..];
    }
  }

  /** Parsing succeeds exactly on texts with one dot, and then printing the parts gives the text back. */
  lemma ParseExactly(id: string)
    ensures NewAddressFromID(id).Some? <==> Dots(id) == 1
    ensures NewAddressFromID(id).Some? ==>
              var a := NewAddressFromID(id).value;
              a.id == id && NewAddressID(a.localId, a.machineId) == id && '.' !in a.localId && '.' !in a.machineId
  {
    SplitCount(id);
    if |Split(id)| == 2 { SplitTwo(id); }
  }

  /** A printed address parses back to its parts exactly when neither part has a dot. */
  lemma PrintParse(localId: string, machineId: string)
    ensures NewAddressFromID(NewAddressID(localId, machineId)) == Some(Address(NewAddressID(localId, machineId), machineId, localId))
       <==> '.' !in localId && '.' !in machineId
    ensures '.' !in localId && '.' !in machineId ==>
              NewAddressFromID(localId + "." + machineId) == Some(Address(localId + "." + machineId, machineId, localId))
  {
    if '.' !in localId && '.' !in machineId {
      SplitAt(localId, machineId);
      SplitPlain(machineId);
    } else {
      ParseExactly(NewAddressID(localId, machineId));
    }
  }

  // ---- routing ----

  /** NewRpcManager's clients: where calls to each machine go. */
  function RpcList(m: AddressManager): map<string, string> {
    map id | id in m.machineInfo :: Key(m.machineInfo[id])
  }

  method NewRpcManager(m: AddressManager) returns (rpcList: map<string, string>)
    ensures rpcList == RpcList(m)
  {
    rpcList := map[];
    var left := m.machineInfo.Keys;
    while left != {}
      invariant left <= m.machineInfo.Keys
      invariant forall id :: id in rpcList <==> id in m.machineInfo && id !in left
      invariant forall id :: id in rpcList ==> rpcList[id] == Key(m.machineInfo[id])
      decreases left
    {
      var machineId :| machineId in left;
      rpcList := rpcList[machineId := Key(m.machineInfo[machineId])];
      left := left - {machineId};
    }
  }

  function GetRpcByAddress(rpcList: map<string, string>, address: Address): Option<string> {
    if address.machineId in rpcList then Some(rpcList[address.machineId]) else None
  }

  predicate IsSelfMachineAddress(m: AddressManager, address: Address) {
    m.selfMachineId == address.machineId
  }

  /** An address generated on the node of machine `s`, printed, and parsed on the node of machine `t`
      is the same address there, is called at `s`, and counts as local exactly on `s` itself. */
  lemma RoutesBack(a: seq<Machine>, b: seq<Machine>, s: Machine, t: Machine, localId: string)
    requires multiset(a) == multiset(b) && KeysIdentify(a) && s in a && t in b && '.' !in localId
    ensures var here := AddressManager(SelfMachineId(a, s), MachineInfo(a));
            var there := AddressManager(SelfMachineId(b, t), MachineInfo(b));
            var address := GeneratorAddress(here, localId);
            && NewAddressFromID(address.id) == Some(address)
            && GetRpcByAddress(RpcList(there), address) == Some(Key(s))
            && (IsSelfMachineAddress(there, address) <==> s == t)
  {
    ClusterAgreement(a, b, s, t);
    PrintParse(localId, SelfMachineId(a, s));
  }

  // ---- when keys identify machines ----

  /** Ports without colons are enough: the key is cut at its last colon. */
  lemma PlainPorts(machines: seq<Machine>)
    requires forall m :: m in machines ==> ':' !in m.port
    ensures KeysIdentify(machines)
  {
    forall a, b | a in machines && b in machines && Key(a) == Key(b) ensures a == b {
      LastCut(a.ip, a.port, b.ip, b.port);
    }
  }

  lemma {:induction false} LastCut(a: string, b: string, c: string, d: string)
    requires ':' !in b && ':' !in d && a + ":" + b == c + ":" + d
    ensures a == c && b == d
    decreases |b|
  {
    var x, y := a + ":" + b, c + ":" + d;
    assert |x| == |y|;
    assert x[|x| - 1] == (if b == "" then ':' else b[|b| - 1]) && (b != "" ==> b[|b| - 1] in b);
    assert y[|y| - 1] == (if d == "" then ':' else d[|d| - 1]) && (d != "" ==> d[|d| - 1] in d);
    assert b == "" <==> d == "";
    if b == "" {
      assert x[..|x| - 1] == a && y[..|y| - 1] == c;
    } else {
      var b', d' := b[..|b| - 1], d[..|d| - 1];
      assert b == b' + [b[|b| - 1]] && d == d' + [d[|d| - 1]];
      assert x[..|x| - 1] == a + ":" + b' && y[..|y| - 1] == c + ":" + d';
      LastCut(a, b', c, d');
    }
  }

  /** All listings of the same machines build the same map exactly when keys identify machines. */
  lemma AgreementIff(a: seq<Machine>)
    ensures KeysIdentify(a) <==>
              forall b, c :: multiset(b) == multiset(a) && multiset(c) == multiset(a) ==> MachineInfo(b) == MachineInfo(c)
  {
    if KeysIdentify(a) {
      forall b, c | multiset(b) == multiset(a) && multiset(c) == multiset(a) ensures MachineInfo(b) == MachineInfo(c) {
        SameMap(a, b);
        SameMap(a, c);
      }
    } else {
      var x, y :| x in a && y in a && Key(x) == Key(y) && x != y;
      var b, c := LastOne(a, x), LastOne(a, y);
      LastWins(b, c, x, y);
    }
  }

  lemma SameMap(a: seq<Machine>, b: seq<Machine>)
    requires multiset(a) == multiset(b) && KeysIdentify(a)
    ensures MachineInfo(a) == MachineInfo(b)
  {
    SameIndex(a, b);
    SameSortedKeys(a, b);
    SortedKnown(a);
  }

  /** The same machines with `x` listed last. */
  ghost function LastOne(a: seq<Machine>, x: Machine): (b: seq<Machine>)
    requires x in a
    ensures multiset(b) == multiset(a) && b[|b| - 1] == x
  {
    var k :| 0 <= k < |a| && a[k] == x;
    assert a == a[..k] + [a[k]] + a[k + 1..];
    a[..k] + a[k + 1..] + [x]
  }

  lemma LastWins(b: seq<Machine>, c: seq<Machine>, x: Machine, y: Machine)
    requires multiset(b) == multiset(c) && b != [] && c != [] && b[|b| - 1] == x && c[|c| - 1] == y
    requires Key(x) == Key(y) && x != y
    ensures MachineInfo(b) != MachineInfo(c)
  {
    var keys := SortStrings(Keys(b));
    SameSortedKeys(b, c);
    SortedKnown(b);
    SortedKnown(c);
    SortStringsSorts(Keys(b));
    assert Keys(b)[|b| - 1] == Key(x) && Key(x) in multiset(keys);
    var i :| 0 <= i < |keys| && keys[i] == Key(x);
    NamedAt(keys, Index(b), i);
    NamedAt(keys, Index(c), i);
  }
}

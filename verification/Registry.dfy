/** The registry of paired sensors: pairing (internal/camera/radio.go) and
    deletion (also internal/web/server.go), over the saved config. */

module RegistryModel {
  import opened Wrappers

  /** A sensor's place on the radio network; address 0 is none. */
  datatype Node = Node(addr: nat, uid: string, index: nat)

  const NoNode := Node(0, "", 0)

  datatype Entry = Entry(id: int, kind: string, node: Node)

  datatype Config = Config(sensors: seq<Entry>, nextAddr: nat, deleted: seq<int>)

  function Max(a: int, b: int): int { if a > b then a else b }

  /** Above every address given, and not the gateway's. */
  function Above(s: seq<Entry>, n: nat, least: nat): (a: nat)
    requires n <= |s|
    ensures a >= least && forall i :: 0 <= i < n ==> a > s[i].node.addr
  {
    if n == 0 then least else Max(Above(s, n - 1, least), s[n - 1].node.addr + 1)
  }

  function NextAddr(c: Config, gateway: nat): (a: nat)
    ensures a >= 2 && a >= c.nextAddr && a != gateway
    ensures forall i :: 0 <= i < |c.sensors| ==> a > c.sensors[i].node.addr
  {
    var a := Above(c.sensors, |c.sensors|, Max(c.nextAddr, 2));
    if a == gateway then a + 1 else a
  }

  /** The address a pairing may use, saved as taken even when there is none left. */
  function Reserve(c: Config, gateway: nat): (Config, Option<nat>) {
    var a := NextAddr(c, gateway);
    (c.(nextAddr := a + 1), if a > 0xff then None else Some(a))
  }

  /** The highest id among the sensors and the deleted ones, at least 0. */
  function TopOf(ids: seq<int>, n: nat): (t: int)
    requires n <= |ids|
    ensures t >= 0 && forall i :: 0 <= i < n ==> ids[i] <= t
  {
    if n == 0 then 0 else Max(TopOf(ids, n - 1), ids[n - 1])
  }

  function Ids(c: Config): seq<int> {
    seq(|c.sensors|, i requires 0 <= i < |c.sensors| => c.sensors[i].id)
  }

  function NextId(c: Config): int {
    Max(TopOf(Ids(c), |c.sensors|), TopOf(c.deleted, |c.deleted|)) + 1
  }

  predicate Takes(e: Entry, index: nat) { e.node.addr != 0 && e.node.index == index }

  predicate Taken(s: seq<Entry>, index: nat) {
    exists i :: 0 <= i < |s| && Takes(s[i], index)
  }

  /** The lowest system index from i on that no sensor takes; None for none. */
  function FreeFrom(s: seq<Entry>, i: nat): (r: Option<nat>)
    ensures r.Some? ==> i <= r.value < 64 && !Taken(s, r.value)
    ensures forall j :: i <= j < (if r.Some? then r.value else 64) ==> Taken(s, j)
    decreases 64 - i
  {
    if i >= 64 then None else if !Taken(s, i) then Some(i) else FreeFrom(s, i + 1)
  }

  /** The first sensor of that hardware id, or their number. */
  function Find(s: seq<Entry>, uid: string, i: nat): (r: nat)
    requires i <= |s|
    ensures i <= r <= |s| && (r < |s| ==> s[r].node.uid == uid)
    ensures forall j :: i <= j < r ==> s[j].node.uid != uid
    decreases |s| - i
  {
    if i == |s| || s[i].node.uid == uid then i else Find(s, uid, i + 1)
  }

  /** s with sensor i placed at node; any other at its address is off the air. */
  function Placed(s: seq<Entry>, i: nat, kind: string, node: Node): seq<Entry>
    requires i < |s|
  {
    seq(|s|, j requires 0 <= j < |s| =>
      if j == i then Entry(s[j].id, kind, node)
      else if s[j].node.addr == node.addr then s[j].(node := NoNode)
      else s[j])
  }

  /** A sensor just paired: one paired again keeps its id and index. None
      when no system index is left. */
  function Adopt(c: Config, addr: nat, uid: string, kind: string): (Config, Option<int>) {
    var i := Find(c.sensors, uid, 0);
    if i < |c.sensors| then
      (c.(sensors := Placed(c.sensors, i, kind, Node(addr, uid, c.sensors[i].node.index))), Some(c.sensors[i].id))
    else match FreeFrom(c.sensors, 0)
      case None => (c, None)
      case Some(index) =>
        var s := c.sensors + [Entry(NextId(c), "", NoNode)];
        (c.(sensors := Placed(s, i, kind, Node(addr, uid, index))), Some(NextId(c)))
  }

  /** s without the entries of that id. */
  function Without(s: seq<Entry>, n: nat, id: int): (r: seq<Entry>)
    requires n <= |s|
  {
    if n == 0 then []
    else if s[n - 1].id == id then Without(s, n - 1, id)
    else Without(s, n - 1, id) + [s[n - 1]]
  }

  /** The radio client stops serving a sensor. */
  function Drop(c: Config, id: int): Config {
    c.(sensors := Without(c.sensors, |c.sensors|, id))
  }

  /** The first entry of that id, or their number. */
  function FindId(s: seq<Entry>, id: int, i: nat): (r: nat)
    requires i <= |s|
    ensures i <= r <= |s| && (r < |s| ==> s[r].id == id)
    ensures forall j :: i <= j < r ==> s[j].id != id
    decreases |s| - i
  {
    if i == |s| || s[i].id == id then i else FindId(s, id, i + 1)
  }

  /** The web server then forgets it for good. */
  function Forget(c: Config, id: int): Config {
    var i := FindId(c.sensors, id, 0);
    var s := if i < |c.sensors| then c.sensors[..i] + c.sensors[i + 1..] else c.sensors;
    c.(sensors := s, deleted := if id in c.deleted then c.deleted else c.deleted + [id])
  }

  /** A setting changed for an id, which is listed if it was not. */
  function Touch(c: Config, id: int): Config {
    if FindId(c.sensors, id, 0) < |c.sensors| then c
    else c.(sensors := c.sensors + [Entry(id, "", NoNode)])
  }
}

module RegistryRuns {
  import opened Wrappers
  import opened RegistryModel

  /** Two entries that cannot both be served. */
  predicate Clash(a: Entry, b: Entry) {
    || a.id == b.id
    || (a.node.addr != 0 && b.node.addr != 0 && (a.node.addr == b.node.addr || a.node.index == b.node.index))
  }

  predicate Fits(e: Entry) {
    (e.node.addr != 0 ==> e.node.index < 64) && (e.node.uid != "" ==> e.node.addr != 0)
  }

  /** Ids, addresses and system indexes all tell sensors apart. */
  ghost predicate Sound(s: seq<Entry>) {
    && (forall i, j :: 0 <= i < j < |s| ==> !Clash(s[i], s[j]))
    && (forall i :: 0 <= i < |s| ==> Fits(s[i]))
  }

  lemma {:induction false} WithoutIsPart(s: seq<Entry>, n: nat, id: int)
    requires n <= |s|
    ensures forall e :: e in Without(s, n, id) <==> e in s[..n] && e.id != id
  {
    if n > 0 {
      WithoutIsPart(s, n - 1, id);
      assert s[..n] == s[..n - 1] + [s[n - 1]];
    }
  }

  lemma {:induction false} WithoutSound(s: seq<Entry>, n: nat, id: int)
    requires n <= |s| && Sound(s)
    ensures Sound(Without(s, n, id))
  {
    if n > 0 {
      WithoutSound(s, n - 1, id);
      WithoutIsPart(s, n - 1, id);
      var r := Without(s, n - 1, id);
      forall i | 0 <= i < |r| ensures !Clash(r[i], s[n - 1]) {
        assert r[i] in s[..n - 1];
      }
    }
  }

  lemma {:induction false} PlacedSound(s: seq<Entry>, i: nat, kind: string, node: Node)
    requires i < |s| && Sound(s) && node.addr != 0 && node.index < 64
    requires forall j :: 0 <= j < |s| && j != i ==> !Takes(s[j], node.index)
    ensures Sound(Placed(s, i, kind, node))
  {
    var r := Placed(s, i, kind, node);
    forall j, k | 0 <= j < k < |r| ensures !Clash(r[j], r[k]) {
      assert !Clash(s[j], s[k]);
      assert j != i ==> !Takes(s[j], node.index);
      assert k != i ==> !Takes(s[k], node.index);
    }
  }

  lemma {:induction false} NextIdIsAbove(c: Config)
    ensures forall i :: 0 <= i < |c.sensors| ==> c.sensors[i].id < NextId(c)
    ensures forall d :: d in c.deleted ==> d < NextId(c)
  {
    var ids := Ids(c);
    forall i | 0 <= i < |c.sensors| ensures c.sensors[i].id < NextId(c) { assert ids[i] == c.sensors[i].id; }
  }

  lemma {:induction false} AdoptSound(c: Config, addr: nat, uid: string, kind: string)
    requires Sound(c.sensors) && addr != 0 && uid != ""
    ensures Sound(Adopt(c, addr, uid, kind).0.sensors)
  {
    var s, i := c.sensors, Find(c.sensors, uid, 0);
    if i < |s| {
      assert Fits(s[i]);
      forall j | 0 <= j < |s| && j != i ensures !Takes(s[j], s[i].node.index) {
        assert !Clash(s[if i < j then i else j], s[if i < j then j else i]);
      }
      PlacedSound(s, i, kind, Node(addr, uid, s[i].node.index));
    } else if FreeFrom(s, 0).Some? {
      NextIdIsAbove(c);
      var all, index := s + [Entry(NextId(c), "", NoNode)], FreeFrom(s, 0).value;
      assert Sound(all);
      forall j | 0 <= j < |all| && j != i ensures !Takes(all[j], index) { assert !Taken(s, index); }
      PlacedSound(all, i, kind, Node(addr, uid, index));
    }
  }

  lemma {:induction false} ForgetSound(c: Config, id: int)
    requires Sound(c.sensors)
    ensures Sound(Forget(c, id).sensors)
  {
  }

  datatype Op =
    | Reserving
    | Adopting(addr: nat, uid: string, kind: string)
    | Dropping(id: int)
    | Forgetting(id: int)
    | Touching(id: int)
  {
    /** The MCU pairs at an address that is not 0, a sensor that has a hardware id. */
    predicate Valid() { Adopting? ==> addr != 0 && uid != "" }
  }

  /** The config, every id ever listed, those whose deletion is half done,
      and the addresses reserved so far. */
  datatype World = World(c: Config, ever: set<int>, half: set<int>, given: seq<nat>)

  function IdSet(s: seq<Entry>): set<int> { set e | e in s :: e.id }

  function After(w: World, op: Op, gateway: nat): Config {
    match op
    case Reserving => Reserve(w.c, gateway).0
    case Adopting(addr, uid, kind) => Adopt(w.c, addr, uid, kind).0
    case Dropping(id) => Drop(w.c, id)
    case Forgetting(id) => Forget(w.c, id)
    case Touching(id) => Touch(w.c, id)
  }

  function Step(w: World, op: Op, gateway: nat): World {
    var c := After(w, op, gateway);
    World(c, w.ever + IdSet(c.sensors),
          if op.Dropping? && op.id in IdSet(w.c.sensors) then w.half + {op.id}
          else if op.Forgetting? then w.half - {op.id} else w.half,
          if op.Reserving? && Reserve(w.c, gateway).1.Some? then w.given + [Reserve(w.c, gateway).1.value] else w.given)
  }

  /** What holds on every run: sensors told apart, every id listed once still
      listed, or deleted, or being deleted, and addresses given in order. */
  ghost predicate Inv(w: World, gateway: nat) {
    && Sound(w.c.sensors)
    && IdSet(w.c.sensors) <= w.ever && w.half <= w.ever
    && (forall id :: id in w.ever ==> id in IdSet(w.c.sensors) || id in w.c.deleted || id in w.half)
    && (forall i, j :: 0 <= i < j < |w.given| ==> w.given[i] < w.given[j])
    && (forall i :: 0 <= i < |w.given| ==>
         2 <= w.given[i] <= 0xff && w.given[i] != gateway && w.given[i] < w.c.nextAddr)
  }

  lemma {:induction false} AdoptIds(c: Config, addr: nat, uid: string, kind: string)
    ensures var (d, r) := Adopt(c, addr, uid, kind);
      IdSet(d.sensors) == IdSet(c.sensors) + if r.Some? then {r.value} else {}
  {
    var s, i := c.sensors, Find(c.sensors, uid, 0);
    var all := if i < |s| then s else s + [Entry(NextId(c), "", NoNode)];
    if i < |s| || FreeFrom(s, 0).Some? {
      var node := Node(addr, uid, if i < |s| then s[i].node.index else FreeFrom(s, 0).value);
      var r := Placed(all, i, kind, node);
      forall id | id in IdSet(all) ensures id in IdSet(r) {
        var j :| 0 <= j < |all| && all[j].id == id;
        assert r[j] in r && r[j].id == id;
      }
      forall id | id in IdSet(r) ensures id in IdSet(all) {
        var j :| 0 <= j < |r| && r[j].id == id;
        assert all[j] in all;
      }
      if i < |s| { assert s[i] in s; }
    }
  }

  /** What is left of a sequence less its i-th element. */
  lemma {:induction false} Others<T>(s: seq<T>, i: nat, j: nat)
    requires i < |s| && j < |s| && j != i
    ensures s[j] in s[..i] + s[i + 1..]
  {
    var k := if j < i then j else j - 1;
    assert (s[..i] + s[i + 1..])[k] == s[j];
  }

  lemma {:induction false} OneOther<T>(s: seq<T>, i: nat, e: T) returns (j: nat)
    requires i < |s| && e in s[..i] + s[i + 1..]
    ensures j < |s| && j != i && s[j] == e
  {
    var k :| 0 <= k < |s| - 1 && (s[..i] + s[i + 1..])[k] == e;
    j := if k < i then k else k + 1;
  }

  lemma {:induction false} ForgetIds(c: Config, id: int)
    requires Sound(c.sensors)
    ensures IdSet(Forget(c, id).sensors) == IdSet(c.sensors) - {id}
  {
    var s, i, t := c.sensors, FindId(c.sensors, id, 0), Forget(c, id).sensors;
    if i < |s| {
      forall e | e in s && e.id != id ensures e in t {
        var j :| 0 <= j < |s| && s[j] == e;
        Others(s, i, j);
      }
      forall e | e in t ensures e in s && e.id != id {
        var j := OneOther(s, i, e);
        assert !Clash(s[if i < j then i else j], s[if i < j then j else i]);
      }
    }
  }

  lemma {:induction false} IdsStay(w: World, op: Op, gateway: nat)
    requires Inv(w, gateway)
    ensures forall id :: id in IdSet(w.c.sensors) ==>
      id in IdSet(After(w, op, gateway).sensors) || ((op.Dropping? || op.Forgetting?) && op.id == id)
    ensures forall d :: d in w.c.deleted ==> d in After(w, op, gateway).deleted
    ensures op.Forgetting? ==> op.id in After(w, op, gateway).deleted
  {
    match op
    case Adopting(addr, uid, kind) => AdoptIds(w.c, addr, uid, kind);
    case Forgetting(id) => ForgetIds(w.c, id);
    case Dropping(id) =>
      WithoutIsPart(w.c.sensors, |w.c.sensors|, id);
      assert w.c.sensors[..|w.c.sensors|] == w.c.sensors;
    case Touching(id) =>
    case Reserving =>
  }

  lemma {:induction false} StepSound(w: World, op: Op, gateway: nat)
    requires Inv(w, gateway) && op.Valid()
    ensures Sound(After(w, op, gateway).sensors)
  {
    match op
    case Adopting(addr, uid, kind) => AdoptSound(w.c, addr, uid, kind);
    case Dropping(id) => WithoutSound(w.c.sensors, |w.c.sensors|, id);
    case Forgetting(id) => ForgetSound(w.c, id);
    case Touching(id) =>
    case Reserving =>
  }

  lemma {:induction false} InvStep(w: World, op: Op, gateway: nat)
    requires Inv(w, gateway) && op.Valid()
    ensures Inv(Step(w, op, gateway), gateway)
  {
    StepSound(w, op, gateway);
    IdsStay(w, op, gateway);
  }

  /** A run from a sound config. */
  function Run(c: Config, ops: seq<Op>, n: nat, gateway: nat): World
    requires n <= |ops|
  {
    if n == 0 then World(c, IdSet(c.sensors), {}, [])
    else Step(Run(c, ops, n - 1, gateway), ops[n - 1], gateway)
  }

  lemma {:induction false} InvRun(c: Config, ops: seq<Op>, n: nat, gateway: nat)
    requires n <= |ops| && Sound(c.sensors) && forall i :: 0 <= i < |ops| ==> ops[i].Valid()
    ensures Inv(Run(c, ops, n, gateway), gateway)
  {
    if n > 0 {
      InvRun(c, ops, n - 1, gateway);
      InvStep(Run(c, ops, n - 1, gateway), ops[n - 1], gateway);
    }
  }

  /** A sensor paired for the first time gets an id listed before exactly
      when the deletion of that very id is still half done. */
  lemma {:induction false} NewIdsAreFresh(w: World, gateway: nat, addr: nat, uid: string, kind: string)
    requires Inv(w, gateway) && Find(w.c.sensors, uid, 0) == |w.c.sensors|
    ensures var r := Adopt(w.c, addr, uid, kind).1;
      r.Some? ==> (r.value in w.ever <==> r.value in w.half)
  {
    NextIdIsAbove(w.c);
  }

  /** The deletion drops the sensor before it notes the id: a pairing that
      ends in between gives the id away again, and the sensor just paired is
      then deleted in its place. */
  lemma {:induction false} PairingDuringADeletion()
    ensures var c := Config([Entry(1, "PIR", Node(2, "aa", 0)), Entry(2, "PIR", Node(3, "bb", 1))], 4, []);
      var (paired, id) := Adopt(Drop(c, 2), 4, "cc", "DWS");
      var after := Forget(paired, 2).sensors;
      && Sound(c.sensors)
      && id == Some(2) && Find(paired.sensors, "cc", 0) < |paired.sensors|
      && Find(after, "cc", 0) == |after|
  {
    var a, b := Entry(1, "PIR", Node(2, "aa", 0)), Entry(2, "PIR", Node(3, "bb", 1));
    assert Without([a, b], 0, 2) == [] && Without([a, b], 1, 2) == [] + [a] == [a] && Without([a, b], 2, 2) == [a];
    assert Drop(Config([a, b], 4, []), 2) == Config([a], 4, []);
    PairsAsTwo(Config([a], 4, []), a);
    var d := Entry(2, "DWS", Node(4, "cc", 1));
    assert Find([a, d], "cc", 1) == 1 && Find([a, d], "cc", 0) == 1;
    assert FindId([a, d], 2, 1) == 1 && FindId([a, d], 2, 0) == 1;
    assert Forget(Config([a, d], 4, []), 2).sensors == [a];
    assert Find([a], "cc", 1) == 1 && Find([a], "cc", 0) == 1;
  }

  lemma {:induction false} PairsAsTwo(c: Config, a: Entry)
    requires a == Entry(1, "PIR", Node(2, "aa", 0)) && c == Config([a], 4, [])
    ensures Adopt(c, 4, "cc", "DWS") == (Config([a, Entry(2, "DWS", Node(4, "cc", 1))], 4, []), Some(2))
  {
    assert Find(c.sensors, "cc", 1) == 1 && Find(c.sensors, "cc", 0) == 1;
    assert TopOf(Ids(c), 0) == 0 && TopOf(Ids(c), 1) == 1 && TopOf([], 0) == 0;
    assert NextId(c) == 2;
    assert Takes(c.sensors[0], 0);
    assert FreeFrom(c.sensors, 1) == Some(1) && FreeFrom(c.sensors, 0) == Some(1);
    assert Placed([a] + [Entry(2, "", NoNode)], 1, "DWS", Node(4, "cc", 1)) == [a, Entry(2, "DWS", Node(4, "cc", 1))];
  }
}

module RegistryMask {
  import opened RegistryModel
  import opened RegistryRuns

  /** A 64-bit word, the low bit first. */
  type Word = w: seq<bool> | |w| == 64 witness seq(64, i => false)

  /** Whether one of the first n ids is served with that system index. */
  ghost predicate Marks(nodes: map<int, nat>, ids: seq<int>, n: nat, index: nat) {
    exists k :: 0 <= k < n <= |ids| && ids[k] in nodes && nodes[ids[k]] == index
  }

  /** One bit per system index of the sensors served. */
  method Mask(nodes: map<int, nat>, ids: seq<int>) returns (m: Word)
    ensures forall i :: 0 <= i < 64 ==> (m[i] <==> Marks(nodes, ids, |ids|, i))
  {
    m := seq(64, i => false);
    var k := 0;
    while k < |ids|
      invariant 0 <= k <= |ids|
      invariant forall i :: 0 <= i < 64 ==> (m[i] <==> Marks(nodes, ids, k, i))
    {
      ghost var was := m;
      if ids[k] in nodes && nodes[ids[k]] < 64 { m := m[nodes[ids[k]] := true]; }
      forall i | 0 <= i < 64 ensures m[i] <==> Marks(nodes, ids, k + 1, i) {
        if Marks(nodes, ids, k, i) {
          var j :| 0 <= j < k && ids[j] in nodes && nodes[ids[j]] == i;
          assert Marks(nodes, ids, k + 1, i);
        }
      }
      k := k + 1;
    }
  }

  /** A word that is the mask of ids. */
  ghost predicate IsMask(m: Word, nodes: map<int, nat>, ids: seq<int>) {
    forall i :: 0 <= i < 64 ==> (m[i] <==> Marks(nodes, ids, |ids|, i))
  }

  /** The sensors served are registered ones on the air. */
  ghost predicate Serves(nodes: map<int, nat>, s: seq<Entry>) {
    forall id :: id in nodes ==> exists i :: 0 <= i < |s| && s[i].id == id && Takes(s[i], nodes[id])
  }

  lemma {:induction false} ServedApart(nodes: map<int, nat>, s: seq<Entry>, a: int, b: int)
    requires Sound(s) && Serves(nodes, s) && a in nodes && b in nodes
    ensures nodes[a] < 64 && (nodes[a] == nodes[b] ==> a == b)
  {
    var i :| 0 <= i < |s| && s[i].id == a && Takes(s[i], nodes[a]);
    var j :| 0 <= j < |s| && s[j].id == b && Takes(s[j], nodes[b]);
    assert Fits(s[i]);
    assert i < j ==> !Clash(s[i], s[j]);
    assert j < i ==> !Clash(s[j], s[i]);
  }

  /** A mask tells which sensors it was made of: its bits are among another's
      exactly when its sensors are. */
  lemma {:induction false} MasksOrderAsSets(s: seq<Entry>, nodes: map<int, nat>, a: seq<int>, b: seq<int>, m: Word,
                                            n: Word)
    requires Sound(s) && Serves(nodes, s)
    requires forall id :: id in a || id in b ==> id in nodes
    requires IsMask(m, nodes, a) && IsMask(n, nodes, b)
    ensures (forall i :: 0 <= i < 64 && m[i] ==> n[i]) <==> (forall id :: id in a ==> id in b)
    ensures m == n <==> (forall id :: id in a <==> id in b)
  {
    MaskWithin(s, nodes, a, b, m, n);
    MaskWithin(s, nodes, b, a, n, m);
    assert m == n <==> forall i :: 0 <= i < 64 ==> m[i] == n[i];
  }

  lemma {:induction false} MaskWithin(s: seq<Entry>, nodes: map<int, nat>, a: seq<int>, b: seq<int>, m: Word, n: Word)
    requires Sound(s) && Serves(nodes, s)
    requires forall id :: id in a || id in b ==> id in nodes
    requires IsMask(m, nodes, a) && IsMask(n, nodes, b)
    ensures (forall i :: 0 <= i < 64 && m[i] ==> n[i]) <==> (forall id :: id in a ==> id in b)
  {
    if forall i :: 0 <= i < 64 && m[i] ==> n[i] {
      forall id | id in a ensures id in b {
        var k :| 0 <= k < |a| && a[k] == id;
        ServedApart(nodes, s, id, id);
        assert Marks(nodes, a, |a|, nodes[id]) && n[nodes[id]];
        var j :| 0 <= j < |b| && b[j] in nodes && nodes[b[j]] == nodes[id];
        ServedApart(nodes, s, b[j], id);
      }
    }
    if forall id :: id in a ==> id in b {
      forall i | 0 <= i < 64 && m[i] ensures n[i] {
        var k :| 0 <= k < |a| && a[k] in nodes && nodes[a[k]] == i;
        assert a[k] in b;
        var j :| 0 <= j < |b| && b[j] == a[k];
        assert Marks(nodes, b, |b|, i);
      }
    }
  }
}

module RegistryClass {
  import opened Wrappers
  import opened RegistryModel

  /** The saved registry. */
  class Registry {
    const gateway: nat
    var sensors: seq<Entry>
    var nextAddr: nat
    var deleted: seq<int>

    constructor (c: Config, gateway: nat)
      ensures View() == c && this.gateway == gateway
    {
      this.gateway, sensors, nextAddr, deleted := gateway, c.sensors, c.nextAddr, c.deleted;
    }

    function View(): Config
      reads this
    {
      Config(sensors, nextAddr, deleted)
    }

    /** The address the next pairing gives; saved before anyone hears of it. */
    method ReserveAddr() returns (r: Option<nat>)
      modifies this
      ensures (View(), r) == Reserve(old(View()), gateway)
    {
      var addr := if nextAddr > 2 then nextAddr else 2;
      var i := 0;
      while i < |sensors|
        invariant 0 <= i <= |sensors| && addr == Above(sensors, i, Max(nextAddr, 2))
      {
        if sensors[i].node.addr + 1 > addr { addr := sensors[i].node.addr + 1; }
        i := i + 1;
      }
      if addr == gateway { addr := addr + 1; }
      nextAddr := addr + 1;
      r := if addr > 0xff then None else Some(addr);
    }

    /** Above every id listed or deleted. */
    method FreshId() returns (id: int)
      ensures id == NextId(View())
    {
      var top := 0;
      var i := 0;
      while i < |sensors|
        invariant 0 <= i <= |sensors| && top == TopOf(Ids(View()), i)
      {
        if sensors[i].id > top { top := sensors[i].id; }
        i := i + 1;
      }
      i := 0;
      while i < |deleted|
        invariant 0 <= i <= |deleted| && top == Max(TopOf(Ids(View()), |sensors|), TopOf(deleted, i))
      {
        if deleted[i] > top { top := deleted[i]; }
        i := i + 1;
      }
      id := top + 1;
    }

    method FreeIndex() returns (r: Option<nat>)
      ensures r == FreeFrom(sensors, 0)
    {
      var i := 0;
      while i < 64
        invariant 0 <= i <= 64 && FreeFrom(sensors, i) == FreeFrom(sensors, 0)
      {
        var taken := IsTaken(i);
        if !taken { return Some(i); }
        i := i + 1;
      }
      r := None;
    }

    method IsTaken(index: nat) returns (b: bool)
      ensures b == Taken(sensors, index)
    {
      var i := 0;
      while i < |sensors|
        invariant 0 <= i <= |sensors| && forall j :: 0 <= j < i ==> !Takes(sensors[j], index)
      {
        if Takes(sensors[i], index) { return true; }
        i := i + 1;
      }
      b := false;
    }

    /** Registers a sensor the MCU just paired. */
    method AdoptPaired(addr: nat, uid: string, kind: string) returns (r: Option<int>)
      modifies this
      ensures (View(), r) == Adopt(old(View()), addr, uid, kind)
    {
      var i, node := 0, Node(addr, uid, 0);
      while i < |sensors| && sensors[i].node.uid != uid
        invariant 0 <= i <= |sensors| && Find(sensors, uid, i) == Find(sensors, uid, 0)
      {
        i := i + 1;
      }
      if i < |sensors| {
        node := node.(index := sensors[i].node.index);
      } else {
        var free := FreeIndex();
        if free.None? { return None; }
        node := node.(index := free.value);
        var id := FreshId();
        sensors := sensors + [Entry(id, "", NoNode)];
      }
      ghost var listed := sensors;
      var j := 0;
      while j < |sensors|
        invariant 0 <= j <= |sensors| == |listed|
        invariant forall k :: 0 <= k < |sensors| ==>
          sensors[k] == (if k < j && k != i && listed[k].node.addr == addr then listed[k].(node := NoNode)
                         else listed[k])
        modifies this`sensors
      {
        if j != i && sensors[j].node.addr == addr { sensors := sensors[j := sensors[j].(node := NoNode)]; }
        j := j + 1;
      }
      sensors := sensors[i := Entry(sensors[i].id, kind, node)];
      assert sensors == Placed(listed, i, kind, node);
      r := Some(sensors[i].id);
    }

    /** The web server's part of a deletion. */
    method ForgetSensor(id: int)
      modifies this
      ensures View() == Forget(old(View()), id)
    {
      var i := 0;
      while i < |sensors| && sensors[i].id != id
        invariant 0 <= i <= |sensors| && FindId(sensors, id, i) == FindId(sensors, id, 0)
      {
        i := i + 1;
      }
      if i < |sensors| { sensors := sensors[..i] + sensors[i + 1..]; }
      i := 0;
      while i < |deleted|
        invariant 0 <= i <= |deleted| && id !in deleted[..i]
      {
        if deleted[i] == id { return; }
        i := i + 1;
      }
      deleted := deleted + [id];
    }

    /** The radio client's part. */
    method DropSensor(id: int)
      modifies this
      ensures View() == Drop(old(View()), id)
    {
      var kept: seq<Entry> := [];
      var i := 0;
      while i < |sensors|
        invariant 0 <= i <= |sensors| && kept == Without(sensors, i, id)
      {
        if sensors[i].id != id { kept := kept + [sensors[i]]; }
        i := i + 1;
      }
      sensors := kept;
    }
  }
}

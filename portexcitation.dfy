/** PortExcitationHelper: groups the excited lumped ports, wave ports and
    surface currents of a driven simulation by excitation index.

    A port operator is the ordered sequence of its (index, excitation) pairs,
    in the ascending index order in which its std::map is iterated. The
    helper's std::map<int, SingleExcitationSpec> is a Dafny map; its ordered
    view is SortedKeys. */
module PortExcitation {
  import opened Scalars

  datatype Port = Port(idx: int, excitation: int)

  /** SingleExcitationSpec. */
  datatype Spec = Spec(lumped: seq<int>, wave: seq<int>, current: seq<int>)

  const NoPorts: Spec := Spec([], [], [])

  datatype PortKind = LumpedPort | WavePort

  /** flatten_port_indices: lumped ports, then wave ports, then surface currents. */
  function Flatten(s: Spec): (r: seq<int>)
    ensures |r| == |s.lumped| + |s.wave| + |s.current|
    ensures r[..|s.lumped|] == s.lumped
    ensures r[|s.lumped|..|s.lumped| + |s.wave|] == s.wave
    ensures r[|s.lumped| + |s.wave|..] == s.current
    ensures forall p :: p in r <==> p in s.lumped || p in s.wave || p in s.current
  {
    var r := s.lumped + s.wave + s.current;
    assert r[..|s.lumped|] == s.lumped;
    assert r[|s.lumped|..|s.lumped| + |s.wave|] == s.wave;
    r
  }

  // ---- the grouping, as a function of the inputs ----

  /** s with xs appended to its list of the given kind. */
  function Extend(s: Spec, kind: PortKind, xs: seq<int>): Spec {
    match kind
    case LumpedPort => s.(lumped := s.lumped + xs)
    case WavePort => s.(wave := s.wave + xs)
  }

  /** The entry for e, or an empty one: what try_emplace leaves behind. */
  function Entry(m: map<int, Spec>, e: int): Spec {
    if e in m then m[e] else NoPorts
  }

  /** One iteration of a port loop of the constructor. */
  function Insert(m: map<int, Spec>, kind: PortKind, p: Port): map<int, Spec> {
    if p.excitation == 0 then m
    else m[p.excitation := Extend(Entry(m, p.excitation), kind, [p.idx])]
  }

  /** A whole port loop. */
  function InsertAll(m: map<int, Spec>, kind: PortKind, ps: seq<Port>): map<int, Spec>
    decreases |ps|
  {
    if |ps| == 0 then m else Insert(InsertAll(m, kind, ps[..|ps| - 1]), kind, ps[|ps| - 1])
  }

  /** The indices of the ports of ps whose excitation is e, in order. */
  function PortsOf(ps: seq<Port>, e: int): seq<int>
    decreases |ps|
  {
    if |ps| == 0 then []
    else PortsOf(ps[..|ps| - 1], e) + (if ps[|ps| - 1].excitation == e then [ps[|ps| - 1].idx] else [])
  }

  predicate Excites(ps: seq<Port>, e: int) {
    exists i :: 0 <= i < |ps| && ps[i].excitation == e
  }

  /** The surface currents given to every excitation, when there are any. */
  function WithCurrents(m: map<int, Spec>, cur: seq<int>): map<int, Spec> {
    if |cur| == 0 then m else map e | e in m :: m[e].(current := cur)
  }

  /** m with the surface currents given to the excitations in done. */
  function CurrentsOn(m: map<int, Spec>, cur: seq<int>, done: set<int>): map<int, Spec> {
    map e | e in m :: if e in done then m[e].(current := cur) else m[e]
  }

  lemma CurrentsOnStep(m: map<int, Spec>, cur: seq<int>, done: set<int>, e: int)
    requires e in m
    ensures CurrentsOn(m, cur, done + {e}) == CurrentsOn(m, cur, done)[e := CurrentsOn(m, cur, done)[e].(current := cur)]
  {
    var l := CurrentsOn(m, cur, done + {e});
    var r := CurrentsOn(m, cur, done)[e := CurrentsOn(m, cur, done)[e].(current := cur)];
    assert l.Keys == r.Keys;
    forall x | x in l
      ensures l[x] == r[x]
    {
    }
  }

  lemma CurrentsOnNone(m: map<int, Spec>, cur: seq<int>)
    ensures CurrentsOn(m, cur, {}) == m
  {
    assert CurrentsOn(m, cur, {}).Keys == m.Keys;
  }

  lemma CurrentsOnAll(m: map<int, Spec>, cur: seq<int>)
    requires |cur| != 0
    ensures CurrentsOn(m, cur, m.Keys) == WithCurrents(m, cur)
  {
    assert CurrentsOn(m, cur, m.Keys).Keys == WithCurrents(m, cur).Keys;
  }

  /** The excitations map the constructor builds. */
  function Build(lumped: seq<Port>, wave: seq<Port>, cur: seq<int>): map<int, Spec> {
    WithCurrents(InsertAll(InsertAll(map[], LumpedPort, lumped), WavePort, wave), cur)
  }

  // ---- what the grouping means ----

  lemma {:induction false} PortsOfMembers(ps: seq<Port>, e: int, x: int)
    ensures x in PortsOf(ps, e) <==> exists i :: 0 <= i < |ps| && ps[i].idx == x && ps[i].excitation == e
    decreases |ps|
  {
    if |ps| > 0 {
      var k := |ps| - 1;
      PortsOfMembers(ps[..k], e, x);
      if exists i :: 0 <= i < |ps| && ps[i].idx == x && ps[i].excitation == e {
        var i :| 0 <= i < |ps| && ps[i].idx == x && ps[i].excitation == e;
        if i < k {
          assert ps[..k][i] == ps[i];
        }
      }
    }
  }

  lemma ExtendTwice(s: Spec, kind: PortKind, xs: seq<int>, ys: seq<int>)
    ensures Extend(Extend(s, kind, xs), kind, ys) == Extend(s, kind, xs + ys)
    ensures Extend(s, kind, []) == s
  {
    match kind
    case LumpedPort =>
      assert s.lumped + xs + ys == s.lumped + (xs + ys);
      assert s.lumped + [] == s.lumped;
    case WavePort =>
      assert s.wave + xs + ys == s.wave + (xs + ys);
      assert s.wave + [] == s.wave;
  }

  lemma PortsOfNone(ps: seq<Port>, e: int)
    requires !Excites(ps, e)
    ensures PortsOf(ps, e) == []
  {
    if PortsOf(ps, e) != [] {
      PortsOfMembers(ps, e, PortsOf(ps, e)[0]);
    }
  }

  lemma ExcitesSnoc(ps: seq<Port>, e: int)
    requires |ps| > 0
    ensures Excites(ps, e) <==> Excites(ps[..|ps| - 1], e) || ps[|ps| - 1].excitation == e
  {
    var k := |ps| - 1;
    if Excites(ps, e) {
      var i :| 0 <= i < |ps| && ps[i].excitation == e;
      if i < k {
        assert ps[..k][i] == ps[i];
      }
    }
    if Excites(ps[..k], e) {
      var i :| 0 <= i < k && ps[..k][i].excitation == e;
      assert ps[i] == ps[..k][i];
    }
  }

  /** A port loop adds exactly the nonzero excitations it meets, and appends to
      each one's list of that kind the ports with that excitation, in order. */
  lemma {:induction false} InsertAllSpec(m: map<int, Spec>, kind: PortKind, ps: seq<Port>, e: int)
    requires 0 !in m
    ensures 0 !in InsertAll(m, kind, ps)
    ensures e in InsertAll(m, kind, ps) <==> e in m || (e != 0 && Excites(ps, e))
    ensures e in InsertAll(m, kind, ps) ==> InsertAll(m, kind, ps)[e] == Extend(Entry(m, e), kind, PortsOf(ps, e))
    decreases |ps|
  {
    if |ps| == 0 {
      ExtendTwice(Entry(m, e), kind, [], []);
    } else {
      var k := |ps| - 1;
      var p := ps[k];
      var prev := InsertAll(m, kind, ps[..k]);
      InsertAllSpec(m, kind, ps[..k], 0);
      InsertAllSpec(m, kind, ps[..k], e);
      ExcitesSnoc(ps, e);
      if e != 0 && p.excitation == e {
        if e !in prev {
          PortsOfNone(ps[..k], e);
          ExtendTwice(Entry(m, e), kind, [], []);
        }
        assert Entry(prev, e) == Extend(Entry(m, e), kind, PortsOf(ps[..k], e));
        ExtendTwice(Entry(m, e), kind, PortsOf(ps[..k], e), [p.idx]);
      } else if e in prev {
        assert PortsOf(ps, e) == PortsOf(ps[..k], e) + [];
      }
    }
  }

  /** The keys are exactly the nonzero excitations of the lumped and wave ports. */
  lemma BuildKeys(lumped: seq<Port>, wave: seq<Port>, cur: seq<int>, e: int)
    ensures e in Build(lumped, wave, cur) <==> e != 0 && (Excites(lumped, e) || Excites(wave, e))
  {
    InsertAllSpec(map[], LumpedPort, lumped, e);
    InsertAllSpec(InsertAll(map[], LumpedPort, lumped), WavePort, wave, e);
  }

  /** Each excitation lists its lumped ports and its wave ports in input order,
      and every surface current. */
  lemma BuildContents(lumped: seq<Port>, wave: seq<Port>, cur: seq<int>, e: int)
    requires e in Build(lumped, wave, cur)
    ensures Build(lumped, wave, cur)[e] == Spec(PortsOf(lumped, e), PortsOf(wave, e), cur)
  {
    var m1 := InsertAll(map[], LumpedPort, lumped);
    InsertAllSpec(map[], LumpedPort, lumped, e);
    InsertAllSpec(m1, WavePort, wave, e);
    if e !in m1 {
      assert PortsOf(lumped, e) == [] by {
        if PortsOf(lumped, e) != [] {
          PortsOfMembers(lumped, e, PortsOf(lumped, e)[0]);
        }
      }
    }
  }

  /** A port whose excitation is 0 is in no excitation's list (port indices are
      distinct, being the keys of the port operator's map). */
  lemma UnexcitedPortExcluded(lumped: seq<Port>, wave: seq<Port>, cur: seq<int>, p: Port, e: int)
    requires forall i, j :: 0 <= i < j < |lumped| ==> lumped[i].idx != lumped[j].idx
    requires forall i, j :: 0 <= i < j < |wave| ==> wave[i].idx != wave[j].idx
    requires p.excitation == 0 && e in Build(lumped, wave, cur)
    ensures p in lumped ==> p.idx !in Build(lumped, wave, cur)[e].lumped
    ensures p in wave ==> p.idx !in Build(lumped, wave, cur)[e].wave
  {
    BuildKeys(lumped, wave, cur, e);
    BuildContents(lumped, wave, cur, e);
    PortsOfMembers(lumped, e, p.idx);
    PortsOfMembers(wave, e, p.idx);
  }

  /** With no excited port there is no excitation, and surface currents are dropped. */
  lemma NoExcitationsDropsCurrents(lumped: seq<Port>, wave: seq<Port>, cur: seq<int>)
    requires forall i :: 0 <= i < |lumped| ==> lumped[i].excitation == 0
    requires forall i :: 0 <= i < |wave| ==> wave[i].excitation == 0
    ensures Build(lumped, wave, cur) == map[]
  {
    forall e | e in Build(lumped, wave, cur)
      ensures false
    {
      BuildKeys(lumped, wave, cur, e);
    }
  }

  // ---- the ordered view of the map ----

  /** A nonempty set has an element. */
  lemma HasElement(s: set<int>)
    requires s != {}
    ensures exists y :: y in s
  {
    if forall y :: y !in s {
      NoElementEmpty(s);
    }
  }

  lemma NoElementEmpty(s: set<int>)
    requires forall y :: y !in s
    ensures s == {}
  {
    assert forall y :: y in s <==> y in {};
  }

  lemma {:induction false} MinExists(s: set<int>)
    requires s != {}
    ensures exists m :: m in s && forall x :: x in s ==> m <= x
    decreases |s|
  {
    HasElement(s);
    var y :| y in s;
    if s != {y} {
      MinExists(s - {y});
      var m :| m in s - {y} && forall x :: x in s - {y} ==> m <= x;
      var least := if y < m then y else m;
      forall x | x in s
        ensures least <= x
      {
        if x != y {
          assert x in s - {y};
        }
      }
    }
  }
  /** The least element of a nonempty set. */
  function SetMin(s: set<int>): (m: int)
    requires s != {}
    ensures m in s && forall x :: x in s ==> m <= x
  {
    MinExists(s);
    var m :| m in s && forall x :: x in s ==> m <= x;
    m
  }

  /** The keys in ascending order, as std::map iterates them. */
  function SortedKeys(s: set<int>): (r: seq<int>)
    ensures |r| == |s|
    ensures forall x :: x in r <==> x in s
    ensures forall i, j :: 0 <= i < j < |r| ==> r[i] < r[j]
    decreases |s|
  {
    if s == {} then []
    else
      var m := SetMin(s);
      var rest := SortedKeys(s - {m});
      assert forall i :: 0 <= i < |rest| ==> m < rest[i] by {
        forall i | 0 <= i < |rest| ensures m < rest[i] {
          assert rest[i] in s - {m};
        }
      }
      var r := [m] + rest;
      assert forall i :: 0 < i < |r| ==> r[i] == rest[i - 1];
      assert forall x :: x in r <==> x == m || x in rest;
      r
  }

  /** The key a reverse iterator r steps from rbegin (r == 0) reaches, or None
      when it does not point at an element (r == |keys| is rend). */
  function ReverseDeref(keys: seq<int>, r: int): Option<int> {
    if 0 <= r < |keys| then Some(keys[|keys| - 1 - r]) else None
  }

  class PortExcitationHelper {
    var excitations: map<int, Spec>

    constructor(lumpedPorts: seq<Port>, wavePorts: seq<Port>, surfaceCurrents: seq<int>)
      ensures excitations == Build(lumpedPorts, wavePorts, surfaceCurrents)
    {
      excitations := map[];
      new;
      AddPorts(LumpedPort, lumpedPorts);
      AddPorts(WavePort, wavePorts);
      var currentPortIdx := CurrentIndices(surfaceCurrents);
      if |currentPortIdx| != 0 {
        SetCurrents(currentPortIdx);
      }
    }

    /** One port loop of the constructor: each excited port is appended, in
        order, to the list of its kind of the entry for its excitation, which
        is created empty first when missing (try_emplace). */
    method AddPorts(kind: PortKind, ports: seq<Port>)
      modifies this
      ensures excitations == InsertAll(old(excitations), kind, ports)
    {
      var i := 0;
      while i < |ports|
        invariant 0 <= i <= |ports|
        invariant excitations == InsertAll(old(excitations), kind, ports[..i])
      {
        var p := ports[i];
        if p.excitation != 0 {
          if p.excitation !in excitations {
            excitations := excitations[p.excitation := NoPorts];
          }
          var s := excitations[p.excitation];
          match kind
          case LumpedPort =>
            excitations := excitations[p.excitation := s.(lumped := s.lumped + [p.idx])];
          case WavePort =>
            excitations := excitations[p.excitation := s.(wave := s.wave + [p.idx])];
        }
        assert ports[..i + 1][..i] == ports[..i];
        i := i + 1;
      }
      assert ports[..i] == ports;
    }

    /** The indices of the surface current operator, in order. */
    static method CurrentIndices(surfaceCurrents: seq<int>) returns (idx: seq<int>)
      ensures idx == surfaceCurrents
    {
      idx := [];
      var i := 0;
      while i < |surfaceCurrents|
        invariant 0 <= i <= |surfaceCurrents|
        invariant idx == surfaceCurrents[..i]
      {
        idx := idx + [surfaceCurrents[i]];
        assert surfaceCurrents[..i + 1] == surfaceCurrents[..i] + [surfaceCurrents[i]];
        i := i + 1;
      }
      assert idx == surfaceCurrents;
    }

    /** Every excitation gets the full list of surface currents. The source visits
        them in key order; since each gets the same list, the order is immaterial. */
    method SetCurrents(cur: seq<int>)
      requires |cur| != 0
      modifies this
      ensures excitations == WithCurrents(old(excitations), cur)
    {
      ghost var before := excitations;
      var todo := excitations.Keys;
      CurrentsOnNone(before, cur);
      assert before.Keys - todo == {};
      while todo != {}
        invariant todo <= before.Keys
        invariant excitations == CurrentsOn(before, cur, before.Keys - todo)
        decreases |todo|
      {
        HasElement(todo);
        var e :| e in todo;
        SetCurrent(e, cur, before, before.Keys - todo);
        assert (before.Keys - todo) + {e} == before.Keys - (todo - {e});
        todo := todo - {e};
      }
      assert before.Keys - todo == before.Keys;
      CurrentsOnAll(before, cur);
    }

    /** ex_spec.current_port = current_port_idx, for the excitation e. */
    method SetCurrent(e: int, cur: seq<int>, ghost before: map<int, Spec>, ghost done: set<int>)
      requires e in before && excitations == CurrentsOn(before, cur, done)
      modifies this
      ensures excitations == CurrentsOn(before, cur, done + {e})
    {
      CurrentsOnStep(before, cur, done, e);
      excitations := excitations[e := excitations[e].(current := cur)];
    }

    /** MaxIdx: 0 without excitations, otherwise the largest excitation index. */
    function MaxIdx(): (r: int)
      reads this
      ensures excitations == map[] ==> r == 0
      ensures excitations != map[] ==> r in excitations && forall e :: e in excitations ==> e <= r
    {
      var keys := SortedKeys(excitations.Keys);
      match ReverseDeref(keys, 0)
      case None => 0
      case Some(k) => k
    }

    /** MaxIdx as written: it dereferences std::next(std::rend(excitations)),
        one step past rend, which points at no element. */
    function MaxIdxAsWritten(): (r: Option<int>)
      reads this
      ensures excitations == map[] ==> r == Some(0)
      ensures excitations != map[] ==> r == None
    {
      if excitations == map[] then Some(0)
      else
        var keys := SortedKeys(excitations.Keys);
        ReverseDeref(keys, |keys| + 1)
    }

    function Size(): (r: nat)
      reads this
      ensures r == 0 <==> excitations == map[]
      ensures r == |SortedKeys(excitations.Keys)|
    {
      assert |excitations| == |excitations.Keys|;
      assert excitations.Keys == {} ==> excitations == map[];
      |excitations|
    }

    function Empty(): (r: bool)
      reads this
      ensures r <==> Size() == 0
      ensures r ==> MaxIdx() == 0
    {
      |excitations| == 0
    }
  }
}

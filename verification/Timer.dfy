/** The timer manager and its two indexes. The k-th timer ever added lives at address `addr(k)`, an
    injective function: addresses are compared but never reused. */
module Timers {
  import opened Text

  type Ptr = nat

  /** A `Timer` object; it repeats when its interval is positive. */
  datatype Timer = Timer(expiration: int, interval: int) {
    predicate Repeat() {
      interval > 0
    }
  }

  /** A key of `timers_`: deadline, then address. */
  type Entry = (int, Ptr)

  /** A key of `active_timers_`: address, then id. */
  type ActiveTimer = (Ptr, nat)

  /** The arguments of one `addTimer`. */
  datatype Request = Request(expiration: int, interval: int)

  /** `heap` holds the live `Timer` objects. */
  datatype Manager = Manager(heap: map<Ptr, Timer>, timers: set<Entry>, active: set<ActiveTimer>, nextId: nat)

  const EMPTY: Manager := Manager(map[], {}, {}, 0)

  ghost predicate Injective(addr: nat -> Ptr) {
    forall j, k :: addr(j) == addr(k) ==> j == k
  }

  // ---- the ordered index ----

  /** `std::pair`'s order on entries. */
  predicate Before(a: Entry, b: Entry) {
    a.0 < b.0 || (a.0 == b.0 && a.1 < b.1)
  }

  predicate IsFirst(e: Entry, entries: set<Entry>) {
    e in entries && forall o | o in entries :: o == e || Before(e, o)
  }

  lemma {:induction false} FirstExists(entries: set<Entry>) returns (e: Entry)
    requires entries != {}
    ensures IsFirst(e, entries)
    decreases |entries|
  {
    e :| e in entries;
    var others := entries - {e};
    if others != {} {
      var f := FirstExists(others);
      var first := if Before(f, e) then f else e;
      forall o | o in entries ensures o == first || Before(first, o) {
        assert o == e || o in others;
      }
      e := first;
    }
  }

  lemma FirstIsUnique(entries: set<Entry>)
    requires entries != {}
    ensures exists e :: IsFirst(e, entries)
    ensures forall e, f :: IsFirst(e, entries) && IsFirst(f, entries) ==> e == f
  {
    var e := FirstExists(entries);
  }

  function First(entries: set<Entry>): (e: Entry)
    requires entries != {}
    ensures IsFirst(e, entries)
  {
    FirstIsUnique(entries);
    var e :| e in entries && IsFirst(e, entries);
    e
  }

  /** A `std::set` in iteration order. */
  function InOrder(entries: set<Entry>): seq<Entry>
    decreases |entries|
  {
    if entries == {} then [] else
      var e := First(entries);
      [e] + InOrder(entries - {e})
  }

  ghost predicate Ascending(es: seq<Entry>) {
    forall i, j :: 0 <= i < j < |es| ==> Before(es[i], es[j])
  }

  lemma {:induction false} InOrderLists(entries: set<Entry>)
    ensures Ascending(InOrder(entries))
    ensures forall e :: e in InOrder(entries) <==> e in entries
    decreases |entries|
  {
    if entries != {} {
      var e := First(entries);
      InOrderLists(entries - {e});
      var tail := InOrder(entries - {e});
      assert InOrder(entries) == [e] + tail;
      forall j | 0 <= j < |tail| ensures Before(e, tail[j]) {
        assert tail[j] in tail;
      }
    }
  }

  const NULLPTR: Ptr := 0

  /** `std::set::lower_bound`: the position of the first entry that is not before `key`. */
  function LowerBound(es: seq<Entry>, key: Entry): (i: nat)
    ensures i <= |es|
    ensures forall j :: 0 <= j < i ==> Before(es[j], key)
    ensures i < |es| ==> !Before(es[i], key)
  {
    if es == [] || !Before(es[0], key) then 0 else 1 + LowerBound(es[1..], key)
  }

  /** The entries up to `lower_bound(Entry(now, nullptr))`. */
  function Expired(m: Manager, now: int): seq<Entry> {
    var es := InOrder(m.timers);
    es[..LowerBound(es, (now, NULLPTR))]
  }

  /** They are exactly the deadlines strictly before now, in order. */
  lemma ExpiredLists(m: Manager, now: int)
    ensures Ascending(Expired(m, now))
    ensures forall e :: e in Expired(m, now) <==> e in m.timers && e.0 < now
  {
    InOrderLists(m.timers);
    hide InOrder;
    PrefixLists(InOrder(m.timers), m.timers, now);
  }

  lemma PrefixLists(es: seq<Entry>, entries: set<Entry>, now: int)
    requires Ascending(es) && forall e :: e in es <==> e in entries
    ensures var due := es[..LowerBound(es, (now, NULLPTR))];
            Ascending(due) && forall e :: e in due <==> e in entries && e.0 < now
  {
    var key := (now, NULLPTR);
    var i := LowerBound(es, key);
    hide LowerBound;
    assert forall k :: i <= k < |es| ==> es[k].0 >= now;
    forall e | e in entries && e.0 < now ensures e in es[..i] {
      assert e in es;
      var k :| 0 <= k < |es| && es[k] == e;
    }
    forall e | e in es[..i] ensures e in entries && e.0 < now {
      assert e in es;
    }
  }

  // ---- operations ----

  function AddTimer(m: Manager, addr: nat -> Ptr, r: Request): Manager {
    var p := addr(m.nextId);
    Manager(m.heap[p := Timer(r.expiration, r.interval)],
            m.timers + {(r.expiration, p)},
            m.active + {(p, m.nextId)},
            m.nextId + 1)
  }

  /** `cancel` of the `TimerId` that the k-th `addTimer` returned. */
  function Cancel(m: Manager, addr: nat -> Ptr, k: nat): Manager
    requires addr(k) in m.heap
  {
    var p := addr(k);
    if (p, k) in m.active
    then Manager(m.heap - {p}, m.timers - {(m.heap[p].expiration, p)}, m.active - {(p, k)}, m.nextId)
    else m
  }

  function AddAll(m: Manager, addr: nat -> Ptr, rs: seq<Request>): Manager
    decreases |rs|
  {
    if rs == [] then m else AddTimer(AddAll(m, addr, rs[..|rs| - 1]), addr, rs[|rs| - 1])
  }

  /** The timers the callbacks add, in firing order. */
  function Requests(fired: seq<Entry>, adds: Ptr -> seq<Request>): seq<Request> {
    if fired == [] then [] else Requests(fired[..|fired| - 1], adds) + adds(fired[|fired| - 1].1)
  }

  /** Both removals at the start of a round; from the second index only id 0 is erased. */
  function TakeOut(m: Manager, fired: seq<Entry>): Manager {
    m.(timers := (set e | e in m.timers && e !in fired),
       active := (set a | a in m.active && !(a.1 == 0 && exists e | e in fired :: e.1 == a.0)))
  }

  /** The end of a round for one fired timer: re-arm it, or delete it. (Fired timers are still there:
      callbacks do not cancel.) */
  function Finish(m: Manager, clock: Ptr -> int, p: Ptr): Manager {
    if p !in m.heap then m
    else if m.heap[p].Repeat() then
      var t := Timer(clock(p) + m.heap[p].interval, m.heap[p].interval);
      m.(heap := m.heap[p := t], timers := m.timers + {(t.expiration, p)}, active := m.active + {(p, 0)})
    else m.(heap := m.heap - {p})
  }

  function FinishAll(m: Manager, clock: Ptr -> int, fired: seq<Entry>): Manager {
    if fired == [] then m
    else Finish(FinishAll(m, clock, fired[..|fired| - 1]), clock, fired[|fired| - 1].1)
  }

  /** `processTimers` at time `now`; `adds(p)` is what the callback of `p` adds, `clock(p)` the time at
      which `p` is restarted. */
  function Process(m: Manager, addr: nat -> Ptr, now: int, adds: Ptr -> seq<Request>,
                   clock: Ptr -> int): Manager {
    var fired := Expired(m, now);
    FinishAll(AddAll(TakeOut(m, fired), addr, Requests(fired, adds)), clock, fired)
  }

  // ---- what every operation keeps ----

  /** One entry per live timer, keyed by its current deadline; every live timer has an id by which
      `cancel` finds it. */
  ghost predicate Sound(m: Manager, addr: nat -> Ptr) {
    && (forall p :: p in m.heap <==> exists e :: e in m.timers && e.1 == p)
    && (forall e :: e in m.timers ==> e.1 in m.heap && m.heap[e.1].expiration == e.0)
    && (forall p :: p in m.heap ==> exists k :: 0 <= k < m.nextId && addr(k) == p && (p, k) in m.active)
  }

  lemma AddKeepsSound(m: Manager, addr: nat -> Ptr, r: Request)
    requires Injective(addr) && Sound(m, addr)
    ensures Sound(AddTimer(m, addr, r), addr)
  {
    var m', p := AddTimer(m, addr, r), addr(m.nextId);
    assert p !in m.heap;
    assert (r.expiration, p) in m'.timers && (p, m.nextId) in m'.active;
    forall q | q in m'.heap
      ensures exists e :: e in m'.timers && e.1 == q
      ensures exists k :: 0 <= k < m'.nextId && addr(k) == q && (q, k) in m'.active
    {
      if q != p {
        var e :| e in m.timers && e.1 == q;
        assert e in m'.timers;
        var k :| 0 <= k < m.nextId && addr(k) == q && (q, k) in m.active;
        assert (q, k) in m'.active;
      } else {
        assert addr(m.nextId) == q;
      }
    }
  }

  /** `cancel` of a live timer always finds it, and takes it out of both indexes. */
  lemma CancelWorks(m: Manager, addr: nat -> Ptr, k: nat)
    requires Injective(addr) && Sound(m, addr) && addr(k) in m.heap
    ensures var m' := Cancel(m, addr, k);
            && Sound(m', addr)
            && m'.heap == m.heap - {addr(k)}
            && m'.timers == (set e | e in m.timers && e.1 != addr(k))
            && m'.active == m.active - {(addr(k), k)}
  {
    var m', p := Cancel(m, addr, k), addr(k);
    var j :| 0 <= j < m.nextId && addr(j) == p && (p, j) in m.active;
    assert j == k;
    forall e | e in m.timers ensures e.1 == p <==> e == (m.heap[p].expiration, p) {
    }
    forall q | q in m'.heap
      ensures exists e :: e in m'.timers && e.1 == q
      ensures exists i :: 0 <= i < m'.nextId && addr(i) == q && (q, i) in m'.active
    {
      var e :| e in m.timers && e.1 == q;
      assert e in m'.timers;
      var i :| 0 <= i < m.nextId && addr(i) == q && (q, i) in m.active;
      assert (q, i) in m'.active;
    }
  }

  // ---- one round ----

  /** What the indexes hold while the fired timers are still out. */
  ghost predicate RoundSound(m: Manager, addr: nat -> Ptr, out: set<Ptr>) {
    && out <= m.heap.Keys
    && (forall p :: p in m.heap && p !in out <==> exists e :: e in m.timers && e.1 == p)
    && (forall e :: e in m.timers ==> e.1 in m.heap && m.heap[e.1].expiration == e.0)
    && (forall p :: p in m.heap ==> exists k :: 0 <= k < m.nextId && addr(k) == p
                                               && ((k == 0 && p in out) || (p, k) in m.active))
  }

  ghost function Pointers(es: seq<Entry>): set<Ptr> {
    set e | e in es :: e.1
  }

  lemma TakeOutRound(m: Manager, addr: nat -> Ptr, now: int)
    requires Sound(m, addr)
    ensures RoundSound(TakeOut(m, Expired(m, now)), addr, Pointers(Expired(m, now)))
  {
    ExpiredLists(m, now);
    var fired := Expired(m, now);
    var m', out := TakeOut(m, fired), Pointers(fired);
    forall p | p in m'.heap
      ensures p !in out <==> exists e :: e in m'.timers && e.1 == p
      ensures exists k :: 0 <= k < m'.nextId && addr(k) == p && ((k == 0 && p in out) || (p, k) in m'.active)
    {
      var e :| e in m.timers && e.1 == p;
      if p !in out {
        assert e !in fired;
        assert e in m'.timers;
      } else {
        forall f | f in m.timers && f.1 == p ensures f in fired {
          assert f == e;
          var g :| g in fired && g.1 == p;
          assert g == e;
        }
      }
      var k :| 0 <= k < m.nextId && addr(k) == p && (p, k) in m.active;
      if (p, k) !in m'.active {
        assert k == 0 && p in out;
      }
    }
  }

  lemma AddKeepsRound(m: Manager, addr: nat -> Ptr, r: Request, out: set<Ptr>)
    requires Injective(addr) && RoundSound(m, addr, out)
    ensures RoundSound(AddTimer(m, addr, r), addr, out)
    ensures addr(m.nextId) !in m.heap
  {
    var m', p := AddTimer(m, addr, r), addr(m.nextId);
    assert p !in m.heap;
    assert (r.expiration, p) in m'.timers && (p, m.nextId) in m'.active;
    forall q | q in m'.heap
      ensures q !in out <==> exists e :: e in m'.timers && e.1 == q
      ensures exists k :: 0 <= k < m'.nextId && addr(k) == q && ((k == 0 && q in out) || (q, k) in m'.active)
    {
      if q == p {
        assert addr(m.nextId) == q;
      } else {
        if q !in out {
          var e :| e in m.timers && e.1 == q;
          assert e in m'.timers;
        }
        var k :| 0 <= k < m.nextId && addr(k) == q && ((k == 0 && q in out) || (q, k) in m.active);
        assert (q, k) in m.active ==> (q, k) in m'.active;
      }
    }
  }

  lemma {:induction false} AddAllKeepsRound(m: Manager, addr: nat -> Ptr, rs: seq<Request>, out: set<Ptr>)
    requires Injective(addr) && RoundSound(m, addr, out)
    ensures RoundSound(AddAll(m, addr, rs), addr, out)
    decreases |rs|
  {
    hide RoundSound, AddTimer;
    if rs != [] {
      AddAllKeepsRound(m, addr, rs[..|rs| - 1], out);
      AddKeepsRound(AddAll(m, addr, rs[..|rs| - 1]), addr, rs[|rs| - 1], out);
    }
  }

  lemma FinishKeepsRound(m: Manager, addr: nat -> Ptr, clock: Ptr -> int, p: Ptr, out: set<Ptr>)
    requires Injective(addr) && RoundSound(m, addr, out) && p in out
    ensures RoundSound(Finish(m, clock, p), addr, out - {p})
  {
    FinishKeepsEntries(m, addr, clock, p, out);
    FinishKeepsIds(m, addr, clock, p, out);
  }

  lemma FinishKeepsEntries(m: Manager, addr: nat -> Ptr, clock: Ptr -> int, p: Ptr, out: set<Ptr>)
    requires RoundSound(m, addr, out) && p in out
    ensures var m' := Finish(m, clock, p);
            && out - {p} <= m'.heap.Keys
            && (forall q :: q in m'.heap && q !in out - {p} <==> exists e :: e in m'.timers && e.1 == q)
            && (forall e :: e in m'.timers ==> e.1 in m'.heap && m'.heap[e.1].expiration == e.0)
  {
    var m' := Finish(m, clock, p);
    forall q | q in m'.heap ensures q !in out - {p} <==> exists e :: e in m'.timers && e.1 == q {
      if q == p {
        assert (m'.heap[p].expiration, p) in m'.timers;
      } else if q !in out {
        var e :| e in m.timers && e.1 == q;
        assert e in m'.timers;
      }
    }
  }

  lemma FinishKeepsIds(m: Manager, addr: nat -> Ptr, clock: Ptr -> int, p: Ptr, out: set<Ptr>)
    requires Injective(addr) && RoundSound(m, addr, out) && p in out
    ensures var m' := Finish(m, clock, p);
            forall q :: q in m'.heap ==> exists k :: 0 <= k < m'.nextId && addr(k) == q
                                                    && ((k == 0 && q in out - {p}) || (q, k) in m'.active)
  {
    var m' := Finish(m, clock, p);
    forall q | q in m'.heap
      ensures exists k :: 0 <= k < m'.nextId && addr(k) == q
                          && ((k == 0 && q in out - {p}) || (q, k) in m'.active)
    {
      var k :| 0 <= k < m.nextId && addr(k) == q && ((k == 0 && q in out) || (q, k) in m.active);
      assert (q, k) in m.active ==> (q, k) in m'.active;
      assert q == p ==> (p, 0) in m'.active;
    }
  }

  lemma {:induction false} FinishAllKeepsRound(m: Manager, addr: nat -> Ptr, clock: Ptr -> int,
                                               fired: seq<Entry>, out: set<Ptr>)
    requires Injective(addr) && RoundSound(m, addr, out)
    requires Pointers(fired) <= out
    requires forall i, j :: 0 <= i < j < |fired| ==> fired[i].1 != fired[j].1
    ensures RoundSound(FinishAll(m, clock, fired), addr, out - Pointers(fired))
    decreases |fired|
  {
    hide RoundSound, Finish;
    if fired == [] {
      assert out - Pointers(fired) == out;
    } else {
      var n := |fired| - 1;
      var before, e := fired[..n], fired[n];
      assert fired == before + [e];
      FinishAllKeepsRound(m, addr, clock, before, out);
      assert e.1 in Pointers(fired);
      assert e.1 !in Pointers(before);
      assert out - Pointers(fired) == out - Pointers(before) - {e.1};
      FinishKeepsRound(FinishAll(m, clock, before), addr, clock, e.1, out - Pointers(before));
    }
  }

  /** The fired timers are distinct objects. */
  lemma FiredAreDistinct(m: Manager, addr: nat -> Ptr, now: int)
    requires Sound(m, addr)
    ensures var fired := Expired(m, now);
            forall i, j :: 0 <= i < j < |fired| ==> fired[i].1 != fired[j].1
  {
    ExpiredLists(m, now);
    var fired := Expired(m, now);
    forall i, j | 0 <= i < j < |fired| ensures fired[i].1 != fired[j].1 {
      assert fired[i] in fired && fired[j] in fired;
      assert Before(fired[i], fired[j]);
    }
  }

  lemma ProcessKeepsSound(m: Manager, addr: nat -> Ptr, now: int, adds: Ptr -> seq<Request>,
                          clock: Ptr -> int)
    requires Injective(addr) && Sound(m, addr)
    ensures Sound(Process(m, addr, now, adds, clock), addr)
  {
    hide Sound, RoundSound, InOrder, FinishAll, AddAll, Requests, TakeOut;
    var fired := Expired(m, now);
    var out := Pointers(fired);
    TakeOutRound(m, addr, now);
    var m1 := TakeOut(m, fired);
    AddAllKeepsRound(m1, addr, Requests(fired, adds), out);
    var m2 := AddAll(m1, addr, Requests(fired, adds));
    FiredAreDistinct(m, addr, now);
    FinishAllKeepsRound(m2, addr, clock, fired, out);
    assert out - Pointers(fired) == {};
    RoundOver(FinishAll(m2, clock, fired), addr);
  }

  lemma RoundOver(m: Manager, addr: nat -> Ptr)
    requires RoundSound(m, addr, {})
    ensures Sound(m, addr)
  {
  }

  /** The entries and ids `addTimer` creates for `rs` from id `k` on. */
  ghost function NewEntries(addr: nat -> Ptr, k: nat, rs: seq<Request>): set<Entry> {
    set i | k <= i < k + |rs| :: (rs[i - k].expiration, addr(i))
  }

  ghost function NewIds(addr: nat -> Ptr, k: nat, n: nat): set<ActiveTimer> {
    set i | k <= i < k + n :: (addr(i), i)
  }

  lemma NewSnoc(addr: nat -> Ptr, k: nat, rs: seq<Request>, r: Request)
    ensures NewEntries(addr, k, rs + [r]) == NewEntries(addr, k, rs) + {(r.expiration, addr(k + |rs|))}
    ensures NewIds(addr, k, |rs| + 1) == NewIds(addr, k, |rs|) + {(addr(k + |rs|), k + |rs|)}
  {
    var all := rs + [r];
    forall e | e in NewEntries(addr, k, rs) + {(r.expiration, addr(k + |rs|))} ensures e in NewEntries(addr, k, all) {
      if e in NewEntries(addr, k, rs) {
        var i :| k <= i < k + |rs| && e == (rs[i - k].expiration, addr(i));
        assert all[i - k] == rs[i - k];
      } else {
        assert all[k + |rs| - k] == r;
      }
    }
  }

  /** What adding does, as sets: the old entries and ids, and the new ones. */
  ghost predicate AddedTo(m: Manager, m': Manager, addr: nat -> Ptr, rs: seq<Request>) {
    && m'.timers == m.timers + NewEntries(addr, m.nextId, rs)
    && m'.active == m.active + NewIds(addr, m.nextId, |rs|)
    && m'.nextId == m.nextId + |rs|
    && (forall p :: p in m.heap ==> p in m'.heap && m'.heap[p] == m.heap[p])
  }

  /** The timers added for `rs` from id `k` on have the intervals asked for. */
  ghost predicate NewIntervals(m: Manager, addr: nat -> Ptr, k: nat, rs: seq<Request>) {
    forall i :: k <= i < k + |rs| && addr(i) in m.heap ==> m.heap[addr(i)].interval == rs[i - k].interval
  }

  lemma {:induction false} AddAllIntervals(m: Manager, addr: nat -> Ptr, rs: seq<Request>)
    requires Injective(addr)
    ensures AddAll(m, addr, rs).nextId == m.nextId + |rs|
    ensures NewIntervals(AddAll(m, addr, rs), addr, m.nextId, rs)
    decreases |rs|
  {
    if rs != [] {
      AddAllIntervals(m, addr, rs[..|rs| - 1]);
    }
  }

  lemma {:induction false} AddAllEntries(m: Manager, addr: nat -> Ptr, rs: seq<Request>, out: set<Ptr>)
    requires Injective(addr) && RoundSound(m, addr, out)
    ensures AddedTo(m, AddAll(m, addr, rs), addr, rs)
    decreases |rs|
  {
    hide RoundSound, NewEntries, NewIds;
    if rs == [] {
      NothingNew(addr, m.nextId);
    } else {
      var before, r := rs[..|rs| - 1], rs[|rs| - 1];
      assert rs == before + [r];
      AddAllEntries(m, addr, before, out);
      AddAllKeepsRound(m, addr, before, out);
      AddKeepsRound(AddAll(m, addr, before), addr, r, out);
      NewSnoc(addr, m.nextId, before, r);
    }
  }

  lemma NothingNew(addr: nat -> Ptr, k: nat)
    ensures NewEntries(addr, k, []) == {} && NewIds(addr, k, 0) == {}
  {
  }

  /** The new entries and ids of the fired timers that repeat. */
  ghost function Rearmed(m: Manager, clock: Ptr -> int, fired: seq<Entry>): set<Entry> {
    set e | e in fired && e.1 in m.heap && m.heap[e.1].Repeat() :: (clock(e.1) + m.heap[e.1].interval, e.1)
  }

  ghost function RearmedIds(m: Manager, fired: seq<Entry>): set<ActiveTimer> {
    set e | e in fired && e.1 in m.heap && m.heap[e.1].Repeat() :: (e.1, 0)
  }

  lemma RearmedSnoc(m: Manager, clock: Ptr -> int, fired: seq<Entry>, e: Entry)
    ensures var repeats := e.1 in m.heap && m.heap[e.1].Repeat();
            && Rearmed(m, clock, fired + [e])
               == Rearmed(m, clock, fired) + (if repeats then {(clock(e.1) + m.heap[e.1].interval, e.1)} else {})
            && RearmedIds(m, fired + [e]) == RearmedIds(m, fired) + (if repeats then {(e.1, 0)} else {})
  {
    assert forall f :: f in fired + [e] <==> f in fired || f == e;
  }

  lemma PointersSnoc(fired: seq<Entry>, e: Entry)
    ensures Pointers(fired + [e]) == Pointers(fired) + {e.1}
  {
    assert forall f :: f in fired + [e] <==> f in fired || f == e;
  }

  /** What the last loop does, as sets. */
  ghost predicate FinishedTo(m: Manager, m': Manager, clock: Ptr -> int, fired: seq<Entry>) {
    && m'.timers == m.timers + Rearmed(m, clock, fired)
    && m'.active == m.active + RearmedIds(m, fired)
    && m'.nextId == m.nextId
    && (forall p :: p !in Pointers(fired) ==>
          (p in m'.heap <==> p in m.heap) && (p in m.heap ==> m'.heap[p] == m.heap[p]))
    && (forall p :: p in m'.heap ==> p in m.heap && m'.heap[p].interval == m.heap[p].interval)
  }

  lemma FinishedStep(m: Manager, m1: Manager, clock: Ptr -> int, before: seq<Entry>, e: Entry)
    requires FinishedTo(m, m1, clock, before) && e.1 !in Pointers(before)
    ensures FinishedTo(m, Finish(m1, clock, e.1), clock, before + [e])
  {
    hide Rearmed, RearmedIds, Pointers;
    RearmedSnoc(m, clock, before, e);
    PointersSnoc(before, e);
    var m' := Finish(m1, clock, e.1);
    assert e.1 in m1.heap <==> e.1 in m.heap;
  }

  lemma {:induction false} FinishAllEntries(m: Manager, clock: Ptr -> int, fired: seq<Entry>)
    requires forall i, j :: 0 <= i < j < |fired| ==> fired[i].1 != fired[j].1
    ensures FinishedTo(m, FinishAll(m, clock, fired), clock, fired)
    decreases |fired|
  {
    if fired == [] {
      assert Pointers(fired) == {};
    } else {
      var before, e := fired[..|fired| - 1], fired[|fired| - 1];
      assert fired == before + [e];
      FinishAllEntries(m, clock, before);
      assert e.1 !in Pointers(before);
      hide FinishedTo, Finish;
      FinishedStep(m, FinishAll(m, clock, before), clock, before, e);
    }
  }

  lemma RearmedSame(m: Manager, m': Manager, clock: Ptr -> int, fired: seq<Entry>)
    requires forall e :: e in fired ==> e.1 in m.heap && e.1 in m'.heap && m'.heap[e.1] == m.heap[e.1]
    ensures Rearmed(m', clock, fired) == Rearmed(m, clock, fired)
    ensures RearmedIds(m', fired) == RearmedIds(m, fired)
  {
  }

  /** TIMER ROUND. Exactly the timers scheduled with a deadline strictly before now fire, once each, in
      deadline order; afterwards the schedule is the rest, the re-armed repeats and the newly added. */
  lemma TimerRound(m: Manager, addr: nat -> Ptr, now: int, adds: Ptr -> seq<Request>, clock: Ptr -> int)
    requires Injective(addr) && Sound(m, addr)
    ensures var fired := Expired(m, now);
            var m' := Process(m, addr, now, adds, clock);
            && Ascending(fired) && (forall e :: e in fired <==> e in m.timers && e.0 < now)
            && (forall i, j :: 0 <= i < j < |fired| ==> fired[i].1 != fired[j].1)
            && m'.timers == (set e | e in m.timers && e.0 >= now)
                            + Rearmed(m, clock, fired)
                            + NewEntries(addr, m.nextId, Requests(fired, adds))
            && (forall p :: p in m.heap && p in m'.heap ==> m'.heap[p].interval == m.heap[p].interval)
            && Sound(m', addr)
  {
    hide Process, Sound, Rearmed, NewEntries, Requests, Ascending, InOrder;
    var fired := Expired(m, now);
    ProcessKeepsSound(m, addr, now, adds, clock);
    ExpiredLists(m, now);
    FiredAreDistinct(m, addr, now);
    RoundEntries(m, addr, now, adds, clock);
    assert TakeOut(m, fired).timers == set e | e in m.timers && e.0 >= now;
  }

  /** A whole round, as sets. */
  ghost predicate RoundTo(m: Manager, m': Manager, addr: nat -> Ptr, fired: seq<Entry>, rs: seq<Request>,
                          clock: Ptr -> int) {
    && m'.timers == TakeOut(m, fired).timers + NewEntries(addr, m.nextId, rs) + Rearmed(m, clock, fired)
    && m'.active == TakeOut(m, fired).active + NewIds(addr, m.nextId, |rs|) + RearmedIds(m, fired)
    && m'.nextId == m.nextId + |rs|
    && (forall p :: p in m.heap && p in m'.heap ==> m'.heap[p].interval == m.heap[p].interval)
    && NewIntervals(m', addr, m.nextId, rs)
  }

  lemma RoundEntries(m: Manager, addr: nat -> Ptr, now: int, adds: Ptr -> seq<Request>, clock: Ptr -> int)
    requires Injective(addr) && Sound(m, addr)
    ensures var fired := Expired(m, now);
            RoundTo(m, Process(m, addr, now, adds, clock), addr, fired, Requests(fired, adds), clock)
  {
    hide RoundSound, InOrder, FinishAll, AddAll, NewEntries, NewIds, Rearmed, RearmedIds, Requests;
    var fired := Expired(m, now);
    ExpiredLists(m, now);
    TakeOutRound(m, addr, now);
    var m1, rs := TakeOut(m, fired), Requests(fired, adds);
    AddAllEntries(m1, addr, rs, Pointers(fired));
    var m2 := AddAll(m1, addr, rs);
    FiredAreDistinct(m, addr, now);
    FinishAllEntries(m2, clock, fired);
    RearmedSame(m, m2, clock, fired);
    AddAllIntervals(m1, addr, rs);
    IntervalsStay(m2, FinishAll(m2, clock, fired), addr, m.nextId, rs);
  }

  lemma IntervalsStay(m: Manager, m': Manager, addr: nat -> Ptr, k: nat, rs: seq<Request>)
    requires NewIntervals(m, addr, k, rs)
    requires forall p :: p in m'.heap ==> p in m.heap && m'.heap[p].interval == m.heap[p].interval
    ensures NewIntervals(m', addr, k, rs)
  {
  }

  // ---- agreement of the two indexes ----

  /** The second index holds exactly the scheduled timers under their ids. */
  ghost predicate IndexesAgree(m: Manager, addr: nat -> Ptr) {
    forall a :: a in m.active <==> a.1 < m.nextId && a.0 == addr(a.1) && a.0 in m.heap
  }

  /** Because a round erases and inserts id 0 whatever the timer's id, it keeps exact agreement
      exactly when nothing but the very first timer fires. */
  lemma AgreementKept(m: Manager, addr: nat -> Ptr, now: int, adds: Ptr -> seq<Request>, clock: Ptr -> int)
    requires Injective(addr) && Sound(m, addr) && IndexesAgree(m, addr)
    ensures IndexesAgree(Process(m, addr, now, adds, clock), addr)
       <==> forall e :: e in m.timers && e.0 < now ==> e.1 == addr(0)
  {
    hide Process;
    if e :| e in m.timers && e.0 < now && e.1 != addr(0) {
      StrayId(m, addr, now, adds, clock, e);
    } else {
      FirstTimerOnly(m, addr, now, adds, clock);
    }
  }

  lemma StrayId(m: Manager, addr: nat -> Ptr, now: int, adds: Ptr -> seq<Request>, clock: Ptr -> int,
                e: Entry)
    requires Injective(addr) && Sound(m, addr) && IndexesAgree(m, addr)
    requires e in m.timers && e.0 < now && e.1 != addr(0)
    ensures !IndexesAgree(Process(m, addr, now, adds, clock), addr)
  {
    hide Process;
    var m' := Process(m, addr, now, adds, clock);
    var fired := Expired(m, now);
    ExpiredLists(m, now);
    RoundEntries(m, addr, now, adds, clock);
    var p := e.1;
    var k :| 0 <= k < m.nextId && addr(k) == p && (p, k) in m.active;
    assert k != 0;
    assert (p, k) in TakeOut(m, fired).active && (p, k) in m'.active;
    if m.heap[p].Repeat() {
      assert (p, 0) in RearmedIds(m, fired);
      assert (p, 0) in m'.active && p != addr(0);
    } else {
      OneShotGone(m, addr, now, adds, clock, e);
    }
  }

  /** A fired timer that does not repeat is deleted. */
  lemma OneShotGone(m: Manager, addr: nat -> Ptr, now: int, adds: Ptr -> seq<Request>, clock: Ptr -> int,
                    e: Entry)
    requires Injective(addr) && Sound(m, addr)
    requires e in m.timers && e.0 < now && !m.heap[e.1].Repeat()
    ensures e.1 !in Process(m, addr, now, adds, clock).heap
  {
    hide Process;
    var m', p := Process(m, addr, now, adds, clock), e.1;
    var rs := Requests(Expired(m, now), adds);
    hide RoundTo;
    ProcessKeepsSound(m, addr, now, adds, clock);
    ExpiredLists(m, now);
    RoundEntries(m, addr, now, adds, clock);
    var k :| 0 <= k < m.nextId && addr(k) == p && (p, k) in m.active;
    forall f | f in m'.timers ensures f.1 != p {
      var i := EntryOrigin(m, m', addr, Expired(m, now), rs, clock, f);
      assert f in m.timers && f.1 == p ==> f == e;
    }
  }

  /** Where an entry comes from that is there after a round: added during it, or kept, or re-armed. */
  lemma EntryOrigin(m: Manager, m': Manager, addr: nat -> Ptr, fired: seq<Entry>, rs: seq<Request>,
                    clock: Ptr -> int, f: Entry)
    returns (i: nat)
    requires RoundTo(m, m', addr, fired, rs, clock) && f in m'.timers
    ensures || (m.nextId <= i < m'.nextId && f.1 == addr(i))
            || (f in m.timers && f !in fired)
            || (f.1 in m.heap && m.heap[f.1].Repeat())
  {
    if f in NewEntries(addr, m.nextId, rs) {
      i :| m.nextId <= i < m.nextId + |rs| && f == (rs[i - m.nextId].expiration, addr(i));
    } else {
      i := 0;
    }
  }

  lemma FirstTimerOnly(m: Manager, addr: nat -> Ptr, now: int, adds: Ptr -> seq<Request>, clock: Ptr -> int)
    requires Injective(addr) && Sound(m, addr) && IndexesAgree(m, addr)
    requires forall e :: e in m.timers && e.0 < now ==> e.1 == addr(0)
    ensures IndexesAgree(Process(m, addr, now, adds, clock), addr)
  {
    hide Process;
    var m' := Process(m, addr, now, adds, clock);
    ProcessKeepsSound(m, addr, now, adds, clock);
    ExpiredLists(m, now);
    RoundEntries(m, addr, now, adds, clock);
    forall a | a in m'.active ensures a.1 < m'.nextId && a.0 == addr(a.1) && a.0 in m'.heap {
      ActiveIsLive(m, m', addr, now, Requests(Expired(m, now), adds), clock, a);
    }
    forall a: ActiveTimer | a.1 < m'.nextId && a.0 == addr(a.1) && a.0 in m'.heap ensures a in m'.active {
      var k :| 0 <= k < m'.nextId && addr(k) == a.0 && (a.0, k) in m'.active;
      assert k == a.1;
    }
  }

  lemma ActiveIsLive(m: Manager, m': Manager, addr: nat -> Ptr, now: int, rs: seq<Request>,
                     clock: Ptr -> int, a: ActiveTimer)
    requires Injective(addr) && Sound(m, addr) && IndexesAgree(m, addr) && Sound(m', addr)
    requires forall e :: e in Expired(m, now) <==> e in m.timers && e.0 < now
    requires forall e :: e in m.timers && e.0 < now ==> e.1 == addr(0)
    requires RoundTo(m, m', addr, Expired(m, now), rs, clock) && a in m'.active
    ensures a.1 < m'.nextId && a.0 == addr(a.1) && a.0 in m'.heap
  {
    hide Sound, IndexesAgree, Expired, NewIds, NewEntries, Rearmed, RearmedIds;
    var fired := Expired(m, now);
    if a in TakeOut(m, fired).active {
      KeptIsLive(m, m', addr, now, rs, clock, a);
    } else if a in RearmedIds(m, fired) {
      RearmedIsLive(m, m', addr, now, rs, clock, a);
    } else {
      var i := NewIdShape(addr, m.nextId, rs, a);
      EntryIsLive(m', addr, (rs[i - m.nextId].expiration, addr(i)));
    }
  }

  lemma NewIdShape(addr: nat -> Ptr, k: nat, rs: seq<Request>, a: ActiveTimer) returns (i: nat)
    requires a in NewIds(addr, k, |rs|)
    ensures k <= i < k + |rs| && a == (addr(i), i) && (rs[i - k].expiration, addr(i)) in NewEntries(addr, k, rs)
  {
    i :| k <= i < k + |rs| && a == (addr(i), i);
  }

  lemma KeptIsLive(m: Manager, m': Manager, addr: nat -> Ptr, now: int, rs: seq<Request>,
                   clock: Ptr -> int, a: ActiveTimer)
    requires Injective(addr) && Sound(m, addr) && IndexesAgree(m, addr) && Sound(m', addr)
    requires forall e :: e in Expired(m, now) <==> e in m.timers && e.0 < now
    requires forall e :: e in m.timers && e.0 < now ==> e.1 == addr(0)
    requires RoundTo(m, m', addr, Expired(m, now), rs, clock) && a in TakeOut(m, Expired(m, now)).active
    ensures a.1 < m'.nextId && a.0 == addr(a.1) && a.0 in m'.heap
  {
    hide Expired, NewIds, NewEntries, Rearmed, RearmedIds;
    var fired := Expired(m, now);
    assert a in m.active;
    var e :| e in m.timers && e.1 == a.0;
    assert e in TakeOut(m, fired).timers;
    assert e in m'.timers;
  }

  lemma RearmedIsLive(m: Manager, m': Manager, addr: nat -> Ptr, now: int, rs: seq<Request>,
                      clock: Ptr -> int, a: ActiveTimer)
    requires Injective(addr) && Sound(m, addr) && Sound(m', addr)
    requires forall e :: e in Expired(m, now) <==> e in m.timers && e.0 < now
    requires forall e :: e in m.timers && e.0 < now ==> e.1 == addr(0)
    requires RoundTo(m, m', addr, Expired(m, now), rs, clock) && a in RearmedIds(m, Expired(m, now))
    ensures a.1 < m'.nextId && a.0 == addr(a.1) && a.0 in m'.heap
  {
    hide Sound, Expired, NewIds, NewEntries, TakeOut;
    var fired := Expired(m, now);
    var e :| e in fired && e.1 in m.heap && m.heap[e.1].Repeat() && a == (e.1, 0);
    var again := (clock(e.1) + m.heap[e.1].interval, e.1);
    assert again in Rearmed(m, clock, fired);
    hide Rearmed, RearmedIds;
    EntryIsLive(m', addr, again);
    var k := IdOf(m, addr, e.1);
  }

  lemma EntryIsLive(m: Manager, addr: nat -> Ptr, e: Entry)
    requires Sound(m, addr) && e in m.timers
    ensures e.1 in m.heap && m.heap[e.1].expiration == e.0
  {
  }

  lemma IdOf(m: Manager, addr: nat -> Ptr, p: Ptr) returns (k: nat)
    requires Sound(m, addr) && p in m.heap
    ensures k < m.nextId && addr(k) == p && (p, k) in m.active
  {
    k :| 0 <= k < m.nextId && addr(k) == p && (p, k) in m.active;
  }

  // ---- runs ----

  datatype Action =
    | AddStep(r: Request)
    | CancelStep(k: nat)
    | ProcessStep(now: int, adds: Ptr -> seq<Request>, clock: Ptr -> int)

  ghost predicate Enabled(m: Manager, addr: nat -> Ptr, a: Action) {
    a.CancelStep? ==> a.k < m.nextId && addr(a.k) in m.heap
  }

  ghost function Apply(m: Manager, addr: nat -> Ptr, a: Action): Manager
    requires Enabled(m, addr, a)
  {
    match a
    case AddStep(r) => AddTimer(m, addr, r)
    case CancelStep(k) => Cancel(m, addr, k)
    case ProcessStep(now, adds, clock) => Process(m, addr, now, adds, clock)
  }

  /** The timers whose callbacks a step runs. */
  ghost function FiredBy(m: Manager, a: Action): set<Ptr> {
    if a.ProcessStep? then Pointers(Expired(m, a.now)) else {}
  }

  /** The end of a run and all timers that fired in it; `None` when a step cannot happen. */
  ghost function Run(m: Manager, addr: nat -> Ptr, steps: seq<Action>): Option<(Manager, set<Ptr>)>
    decreases |steps|
  {
    if steps == [] then Some((m, {}))
    else if Enabled(m, addr, steps[0]) then
      var later := Run(Apply(m, addr, steps[0]), addr, steps[1..]);
      if later.None? then None else Some((later.value.0, FiredBy(m, steps[0]) + later.value.1))
    else None
  }

  lemma StepKeepsSound(m: Manager, addr: nat -> Ptr, a: Action)
    requires Injective(addr) && Sound(m, addr) && Enabled(m, addr, a)
    ensures Sound(Apply(m, addr, a), addr)
  {
    hide Sound, Process, AddTimer, Cancel;
    match a {
      case AddStep(r) => AddKeepsSound(m, addr, r);
      case CancelStep(k) => CancelWorks(m, addr, k);
      case ProcessStep(now, adds, clock) => ProcessKeepsSound(m, addr, now, adds, clock);
    }
  }

  lemma {:induction false} RunKeepsSound(m: Manager, addr: nat -> Ptr, steps: seq<Action>)
    requires Injective(addr) && Sound(m, addr) && Run(m, addr, steps).Some?
    ensures Sound(Run(m, addr, steps).value.0, addr)
    decreases |steps|
  {
    hide Sound, Apply, Enabled;
    if steps != [] {
      StepKeepsSound(m, addr, steps[0]);
      RunKeepsSound(Apply(m, addr, steps[0]), addr, steps[1..]);
    }
  }

  lemma EmptyIsSound(addr: nat -> Ptr)
    ensures Sound(EMPTY, addr)
  {
  }

  /** Over every run of a new manager: both indexes stay well formed, and every scheduled timer stays
      cancellable. */
  lemma EveryRunIsSound(addr: nat -> Ptr, steps: seq<Action>)
    requires Injective(addr) && Run(EMPTY, addr, steps).Some?
    ensures Sound(Run(EMPTY, addr, steps).value.0, addr)
  {
    hide Sound, Run;
    EmptyIsSound(addr);
    RunKeepsSound(EMPTY, addr, steps);
  }

  /** A deleted timer: its id was given out, its object is gone. */
  ghost predicate Dead(m: Manager, addr: nat -> Ptr, k: nat) {
    k < m.nextId && addr(k) !in m.heap
  }

  lemma DeadStaysDead(m: Manager, addr: nat -> Ptr, a: Action, k: nat)
    requires Injective(addr) && Sound(m, addr) && Enabled(m, addr, a) && Dead(m, addr, k)
    ensures Dead(Apply(m, addr, a), addr, k) && addr(k) !in FiredBy(m, a)
  {
    match a {
      case AddStep(r) =>
        assert addr(m.nextId) != addr(k);
      case CancelStep(j) =>
        CancelWorks(m, addr, j);
      case ProcessStep(now, adds, clock) =>
        DeadThroughRound(m, addr, now, adds, clock, k);
    }
  }

  lemma DeadThroughRound(m: Manager, addr: nat -> Ptr, now: int, adds: Ptr -> seq<Request>,
                         clock: Ptr -> int, k: nat)
    requires Injective(addr) && Sound(m, addr) && Dead(m, addr, k)
    ensures Dead(Process(m, addr, now, adds, clock), addr, k) && addr(k) !in Pointers(Expired(m, now))
  {
    var m', p := Process(m, addr, now, adds, clock), addr(k);
    hide Process, RoundTo;
    var rs := Requests(Expired(m, now), adds);
    ProcessKeepsSound(m, addr, now, adds, clock);
    ExpiredLists(m, now);
    RoundEntries(m, addr, now, adds, clock);
    RoundIds(m, m', addr, Expired(m, now), rs, clock);
    forall f | f in m'.timers ensures f.1 != p {
      var i := EntryOrigin(m, m', addr, Expired(m, now), rs, clock, f);
    }
  }

  lemma RoundIds(m: Manager, m': Manager, addr: nat -> Ptr, fired: seq<Entry>, rs: seq<Request>,
                 clock: Ptr -> int)
    requires RoundTo(m, m', addr, fired, rs, clock)
    ensures m.nextId <= m'.nextId
  {
  }

  lemma {:induction false} DeadNeverFires(m: Manager, addr: nat -> Ptr, steps: seq<Action>, k: nat)
    requires Injective(addr) && Sound(m, addr) && Dead(m, addr, k) && Run(m, addr, steps).Some?
    ensures addr(k) !in Run(m, addr, steps).value.1
    decreases |steps|
  {
    hide Sound, Apply, Enabled, Dead, FiredBy;
    if steps != [] {
      StepKeepsSound(m, addr, steps[0]);
      DeadStaysDead(m, addr, steps[0], k);
      DeadNeverFires(Apply(m, addr, steps[0]), addr, steps[1..], k);
    }
  }

  /** A live timer cancelled after any run of a new manager never fires again, in any continuation. */
  lemma CancelledNeverFires(addr: nat -> Ptr, before: seq<Action>, k: nat, after: seq<Action>)
    requires Injective(addr) && Run(EMPTY, addr, before).Some?
    requires k < Run(EMPTY, addr, before).value.0.nextId && addr(k) in Run(EMPTY, addr, before).value.0.heap
    requires Run(Cancel(Run(EMPTY, addr, before).value.0, addr, k), addr, after).Some?
    ensures addr(k) !in Run(Cancel(Run(EMPTY, addr, before).value.0, addr, k), addr, after).value.1
  {
    hide Run, Sound;
    EveryRunIsSound(addr, before);
    var m := Run(EMPTY, addr, before).value.0;
    CancelWorks(m, addr, k);
    DeadNeverFires(Cancel(m, addr, k), addr, after, k);
  }

  // ---- intervals over runs ----

  /** The timers a step asks for, in the order of their ids. */
  ghost function AskedBy(m: Manager, s: Action): seq<Request> {
    match s
    case AddStep(r) => [r]
    case CancelStep(_) => []
    case ProcessStep(now, adds, _) => Requests(Expired(m, now), adds)
  }

  /** All timers asked for along a run: the k-th is the one with id k. */
  ghost function Asked(m: Manager, addr: nat -> Ptr, steps: seq<Action>): seq<Request>
    decreases |steps|
  {
    if steps == [] || !Enabled(m, addr, steps[0]) then []
    else AskedBy(m, steps[0]) + Asked(Apply(m, addr, steps[0]), addr, steps[1..])
  }

  /** Every live timer has the interval that was asked for. */
  ghost predicate AsAsked(m: Manager, addr: nat -> Ptr, log: seq<Request>) {
    |log| == m.nextId && NewIntervals(m, addr, 0, log)
  }

  lemma StepAsAsked(m: Manager, addr: nat -> Ptr, s: Action, log: seq<Request>)
    requires Injective(addr) && Sound(m, addr) && Enabled(m, addr, s) && AsAsked(m, addr, log)
    ensures AsAsked(Apply(m, addr, s), addr, log + AskedBy(m, s))
  {
    match s {
      case AddStep(r) =>
      case CancelStep(k) =>
        assert log + [] == log;
      case ProcessStep(now, adds, clock) =>
        RoundAsAsked(m, addr, now, adds, clock, log);
    }
  }

  lemma RoundAsAsked(m: Manager, addr: nat -> Ptr, now: int, adds: Ptr -> seq<Request>, clock: Ptr -> int,
                     log: seq<Request>)
    requires Injective(addr) && Sound(m, addr) && AsAsked(m, addr, log)
    ensures AsAsked(Process(m, addr, now, adds, clock), addr, log + Requests(Expired(m, now), adds))
  {
    hide Process, Sound, TakeOut, NewEntries, NewIds, Rearmed, RearmedIds, NewIntervals;
    RoundEntries(m, addr, now, adds, clock);
    var m', rs := Process(m, addr, now, adds, clock), Requests(Expired(m, now), adds);
    hide Expired, Requests;
    forall k: nat | k < m.nextId && addr(k) in m'.heap ensures addr(k) in m.heap {
      OldStaysOld(m, addr, now, adds, clock, k);
    }
    OldAndNew(m, m', addr, log, rs);
  }

  lemma OldAndNew(m: Manager, m': Manager, addr: nat -> Ptr, log: seq<Request>, rs: seq<Request>)
    requires AsAsked(m, addr, log) && m'.nextId == m.nextId + |rs| && NewIntervals(m', addr, m.nextId, rs)
    requires forall k: nat :: k < m.nextId && addr(k) in m'.heap ==> addr(k) in m.heap
    requires forall p :: p in m.heap && p in m'.heap ==> m'.heap[p].interval == m.heap[p].interval
    ensures AsAsked(m', addr, log + rs)
  {
  }

  /** A timer that is there after a round and was asked for before was there before. */
  lemma OldStaysOld(m: Manager, addr: nat -> Ptr, now: int, adds: Ptr -> seq<Request>, clock: Ptr -> int, k: nat)
    requires Injective(addr) && Sound(m, addr) && k < m.nextId
    requires addr(k) in Process(m, addr, now, adds, clock).heap
    ensures addr(k) in m.heap
  {
    hide Sound, Process;
    if addr(k) !in m.heap {
      DeadThroughRound(m, addr, now, adds, clock, k);
    }
  }

  lemma {:induction false} RunAsAsked(m: Manager, addr: nat -> Ptr, steps: seq<Action>, log: seq<Request>)
    requires Injective(addr) && Sound(m, addr) && AsAsked(m, addr, log) && Run(m, addr, steps).Some?
    ensures AsAsked(Run(m, addr, steps).value.0, addr, log + Asked(m, addr, steps))
    decreases |steps|
  {
    hide Sound, Apply, Enabled, AsAsked, AskedBy;
    if steps == [] {
      assert log + [] == log;
    } else {
      var next := Apply(m, addr, steps[0]);
      StepAsAsked(m, addr, steps[0], log);
      StepKeepsSound(m, addr, steps[0]);
      RunAsAsked(next, addr, steps[1..], log + AskedBy(m, steps[0]));
      assert log + AskedBy(m, steps[0]) + Asked(next, addr, steps[1..])
          == log + (AskedBy(m, steps[0]) + Asked(next, addr, steps[1..]));
    }
  }

  /** INTERVALS, over every run of a new manager: the k-th timer asked for, as long as it is there, has the
      interval asked for. */
  lemma IntervalsAsAsked(addr: nat -> Ptr, steps: seq<Action>)
    requires Injective(addr) && Run(EMPTY, addr, steps).Some?
    ensures AsAsked(Run(EMPTY, addr, steps).value.0, addr, Asked(EMPTY, addr, steps))
  {
    hide Run, Asked;
    EmptyIsSound(addr);
    RunAsAsked(EMPTY, addr, steps, []);
    assert [] + Asked(EMPTY, addr, steps) == Asked(EMPTY, addr, steps);
  }

  /** RE-ARMING: after any run and a round in which the timer with id k fired, it is scheduled again, at the time
      of its restart plus the interval asked for, if and only if that is positive; otherwise it is gone. */
  lemma RearmedExactly(addr: nat -> Ptr, steps: seq<Action>, now: int, adds: Ptr -> seq<Request>, clock: Ptr -> int,
                       k: nat)
    requires Injective(addr) && Run(EMPTY, addr, steps).Some?
    requires var m := Run(EMPTY, addr, steps).value.0;
             k < m.nextId && addr(k) in Pointers(Expired(m, now))
    ensures var m', log := Process(Run(EMPTY, addr, steps).value.0, addr, now, adds, clock), Asked(EMPTY, addr, steps);
            && k < |log|
            && var deadline := clock(addr(k)) + log[k].interval;
               if log[k].interval > 0
               then addr(k) in m'.heap && m'.heap[addr(k)] == Timer(deadline, log[k].interval)
                    && (deadline, addr(k)) in m'.timers
               else addr(k) !in m'.heap
  {
    hide Run, Asked, Process, Sound;
    var m, log := Run(EMPTY, addr, steps).value.0, Asked(EMPTY, addr, steps);
    IntervalsAsAsked(addr, steps);
    EveryRunIsSound(addr, steps);
    ExpiredLists(m, now);
    var e :| e in Expired(m, now) && e.1 == addr(k);
    hide Expired;
    EntryIsLive(m, addr, e);
    if log[k].interval > 0 {
      RepeatGoesOn(m, addr, now, adds, clock, e);
    } else {
      OneShotGone(m, addr, now, adds, clock, e);
    }
  }

  lemma RepeatGoesOn(m: Manager, addr: nat -> Ptr, now: int, adds: Ptr -> seq<Request>, clock: Ptr -> int, e: Entry)
    requires Injective(addr) && Sound(m, addr)
    requires e in m.timers && e.0 < now && e.1 in m.heap && m.heap[e.1].interval > 0
    ensures var m', i := Process(m, addr, now, adds, clock), m.heap[e.1].interval;
            && (clock(e.1) + i, e.1) in m'.timers
            && e.1 in m'.heap && m'.heap[e.1] == Timer(clock(e.1) + i, i)
  {
    hide Process, Sound, Expired, NewEntries, NewIds, RearmedIds, TakeOut, Requests, NewIntervals;
    var fired := Expired(m, now);
    ExpiredLists(m, now);
    ProcessKeepsSound(m, addr, now, adds, clock);
    RoundEntries(m, addr, now, adds, clock);
    var again := (clock(e.1) + m.heap[e.1].interval, e.1);
    assert again in Rearmed(m, clock, fired);
    EntryIsLive(Process(m, addr, now, adds, clock), addr, again);
  }

  /** Where in the list of requests those of the i-th callback begin. */
  function Offset(fired: seq<Entry>, adds: Ptr -> seq<Request>, i: nat): nat
    requires i <= |fired|
  {
    if i == 0 then 0 else Offset(fired, adds, i - 1) + |adds(fired[i - 1].1)|
  }

  /** No request of a callback is left out, and they stand in firing order. */
  lemma {:induction false} RequestsInTurn(fired: seq<Entry>, adds: Ptr -> seq<Request>, i: nat)
    requires i < |fired|
    ensures |Requests(fired, adds)| == Offset(fired, adds, |fired|)
    ensures Offset(fired, adds, i) + |adds(fired[i].1)| <= |Requests(fired, adds)|
    ensures Requests(fired, adds)[Offset(fired, adds, i)..][..|adds(fired[i].1)|] == adds(fired[i].1)
    decreases |fired|
  {
    var n := |fired| - 1;
    var before := fired[..n];
    SameOffsets(before, fired, adds, n);
    if i < n {
      RequestsInTurn(before, adds, i);
      SameOffsets(before, fired, adds, i);
    } else if n > 0 {
      RequestsInTurn(before, adds, n - 1);
    }
  }

  lemma {:induction false} SameOffsets(before: seq<Entry>, fired: seq<Entry>, adds: Ptr -> seq<Request>, i: nat)
    requires before <= fired && i <= |before|
    ensures Offset(before, adds, i) == Offset(fired, adds, i)
    decreases i
  {
    if i > 0 {
      SameOffsets(before, fired, adds, i - 1);
    }
  }

  // ---- agreement of the two indexes over runs ----

  /** An id of the second index that does not belong to a scheduled timer: another timer's id, or the id
      of a timer that is gone. */
  ghost predicate Stray(m: Manager, addr: nat -> Ptr, a: ActiveTimer, k: nat) {
    a in m.active && k < m.nextId && a.0 == addr(k) && (a.1 != k || addr(k) !in m.heap)
  }

  ghost predicate HasStray(m: Manager, addr: nat -> Ptr) {
    exists a, k :: Stray(m, addr, a, k)
  }

  /** Every address in the second index was given out. */
  ghost predicate KnownIds(m: Manager, addr: nat -> Ptr) {
    forall a :: a in m.active ==> exists k :: 0 <= k < m.nextId && a.0 == addr(k)
  }

  lemma DisagreeByStray(m: Manager, addr: nat -> Ptr)
    requires Injective(addr) && Sound(m, addr) && KnownIds(m, addr)
    ensures HasStray(m, addr) <==> !IndexesAgree(m, addr)
  {
    if !IndexesAgree(m, addr) {
      var a :| !(a in m.active <==> (a.1 < m.nextId && a.0 == addr(a.1) && a.0 in m.heap));
      if a in m.active {
        var k :| 0 <= k < m.nextId && a.0 == addr(k);
        assert Stray(m, addr, a, k);
      }
    }
  }

  lemma StepKeepsKnownIds(m: Manager, addr: nat -> Ptr, a: Action)
    requires Injective(addr) && Sound(m, addr) && Enabled(m, addr, a) && KnownIds(m, addr)
    ensures KnownIds(Apply(m, addr, a), addr)
  {
    var m' := Apply(m, addr, a);
    match a {
      case AddStep(r) =>
        assert m'.nextId == m.nextId + 1;
        forall x | x in m'.active ensures exists k :: 0 <= k < m'.nextId && x.0 == addr(k) {
          if x in m.active {
            var k :| 0 <= k < m.nextId && x.0 == addr(k);
          } else {
            assert x.0 == addr(m.nextId);
          }
        }
      case CancelStep(k) =>
      case ProcessStep(now, adds, clock) =>
        RoundKeepsKnownIds(m, addr, now, adds, clock);
    }
  }

  lemma RoundKeepsKnownIds(m: Manager, addr: nat -> Ptr, now: int, adds: Ptr -> seq<Request>,
                           clock: Ptr -> int)
    requires Injective(addr) && Sound(m, addr) && KnownIds(m, addr)
    ensures KnownIds(Process(m, addr, now, adds, clock), addr)
  {
    hide Process;
    var m', fired := Process(m, addr, now, adds, clock), Expired(m, now);
    var rs := Requests(fired, adds);
    RoundEntries(m, addr, now, adds, clock);
    ExpiredLists(m, now);
    forall x | x in m'.active ensures exists k :: 0 <= k < m'.nextId && x.0 == addr(k) {
      if x in m.active {
        var k :| 0 <= k < m.nextId && x.0 == addr(k);
        assert k < m'.nextId;
      } else if x in RearmedIds(m, fired) {
        var e :| e in fired && x == (e.1, 0);
        var k :| 0 <= k < m.nextId && addr(k) == e.1 && (e.1, k) in m.active;
        assert k < m'.nextId;
      } else {
        var k := NewIdShape(addr, m.nextId, rs, x);
        assert k < m'.nextId;
      }
    }
  }

  /** A stray id never goes away, though another may take its place. */
  lemma StrayStays(m: Manager, addr: nat -> Ptr, s: Action)
    requires Injective(addr) && Sound(m, addr) && Enabled(m, addr, s) && HasStray(m, addr)
    ensures HasStray(Apply(m, addr, s), addr)
  {
    var a, k :| Stray(m, addr, a, k);
    var m' := Apply(m, addr, s);
    match s {
      case AddStep(r) =>
        assert Stray(m', addr, a, k);
      case CancelStep(j) =>
        CancelWorks(m, addr, j);
        assert Stray(m', addr, a, k);
      case ProcessStep(now, adds, clock) =>
        StrayThroughRound(m, addr, now, adds, clock, a, k);
    }
  }

  lemma StrayThroughRound(m: Manager, addr: nat -> Ptr, now: int, adds: Ptr -> seq<Request>,
                          clock: Ptr -> int,
                          a: ActiveTimer, k: nat)
    requires Injective(addr) && Sound(m, addr) && Stray(m, addr, a, k)
    ensures HasStray(Process(m, addr, now, adds, clock), addr)
  {
    hide Process;
    var m', fired := Process(m, addr, now, adds, clock), Expired(m, now);
    RoundEntries(m, addr, now, adds, clock);
    ExpiredLists(m, now);
    if a in TakeOut(m, fired).active {
      if a.1 == k {
        DeadThroughRound(m, addr, now, adds, clock, k);
      }
      assert Stray(m', addr, a, k);
    } else {
      var e :| e in fired && e.1 == a.0;
      if m.heap[e.1].Repeat() {
        assert (e.1, 0) in RearmedIds(m, fired);
        assert Stray(m', addr, a, k);
      } else {
        OneShotGone(m, addr, now, adds, clock, e);
        var j :| 0 <= j < m.nextId && addr(j) == e.1 && (e.1, j) in m.active;
        assert (e.1, k) in TakeOut(m, fired).active;
        assert Stray(m', addr, (e.1, k), k);
      }
    }
  }

  lemma StepKeepsAgreement(m: Manager, addr: nat -> Ptr, s: Action)
    requires Injective(addr) && Sound(m, addr) && Enabled(m, addr, s) && IndexesAgree(m, addr)
    ensures IndexesAgree(Apply(m, addr, s), addr) <==> FiredBy(m, s) <= {addr(0)}
  {
    match s {
      case AddStep(r) =>
        AddKeepsAgreement(m, addr, r);
      case CancelStep(j) =>
        CancelKeepsAgreement(m, addr, j);
      case ProcessStep(now, adds, clock) =>
        hide Process, Sound, IndexesAgree, Expired;
        AgreementKept(m, addr, now, adds, clock);
        ExpiredLists(m, now);
        assert forall e :: e in Expired(m, now) ==> e.1 in Pointers(Expired(m, now));
    }
  }

  lemma CancelKeepsAgreement(m: Manager, addr: nat -> Ptr, k: nat)
    requires Injective(addr) && Sound(m, addr) && addr(k) in m.heap && IndexesAgree(m, addr)
    ensures IndexesAgree(Cancel(m, addr, k), addr)
  {
    CancelWorks(m, addr, k);
    hide Sound, Cancel;
  }

  lemma AddKeepsAgreement(m: Manager, addr: nat -> Ptr, r: Request)
    requires Injective(addr) && Sound(m, addr) && IndexesAgree(m, addr)
    ensures IndexesAgree(AddTimer(m, addr, r), addr)
  {
    assert addr(m.nextId) !in m.heap;
  }

  lemma {:induction false} RunAgreement(m: Manager, addr: nat -> Ptr, steps: seq<Action>)
    requires Injective(addr) && Sound(m, addr) && KnownIds(m, addr) && Run(m, addr, steps).Some?
    ensures var (m', fired) := Run(m, addr, steps).value;
            IndexesAgree(m', addr) <==> IndexesAgree(m, addr) && fired <= {addr(0)}
    decreases |steps|
  {
    hide Sound, Apply, Enabled, IndexesAgree, KnownIds, HasStray, FiredBy;
    if steps != [] {
      var next := Apply(m, addr, steps[0]);
      StepKeepsSound(m, addr, steps[0]);
      StepKeepsKnownIds(m, addr, steps[0]);
      if IndexesAgree(m, addr) {
        StepKeepsAgreement(m, addr, steps[0]);
      } else {
        DisagreeByStray(m, addr);
        StrayStays(m, addr, steps[0]);
        DisagreeByStray(next, addr);
      }
      RunAgreement(next, addr, steps[1..]);
    }
  }

  /** WHEN THE INDEXES AGREE, over every run of a new manager: exactly while no timer but the first ever
      added has fired. */
  lemma AgreementOfRuns(addr: nat -> Ptr, steps: seq<Action>)
    requires Injective(addr) && Run(EMPTY, addr, steps).Some?
    ensures var (m, fired) := Run(EMPTY, addr, steps).value;
            IndexesAgree(m, addr) <==> fired <= {addr(0)}
  {
    hide Run;
    EmptyIsSound(addr);
    RunAgreement(EMPTY, addr, steps);
  }

  /** A run on which they do not: the second timer fires. */
  lemma SecondTimerLeavesStray(addr: nat -> Ptr) returns (steps: seq<Action>)
    requires Injective(addr)
    ensures Run(EMPTY, addr, steps).Some? && !IndexesAgree(Run(EMPTY, addr, steps).value.0, addr)
  {
    var first, second := AddStep(Request(2, 0)), AddStep(Request(0, 0));
    var round := ProcessStep(1, p => [], p => 1);
    steps := [first, second, round];
    assert steps[1..] == [second, round] && steps[1..][1..] == [round] && steps[1..][1..][1..] == [];
    var m := AddTimer(AddTimer(EMPTY, addr, first.r), addr, second.r);
    SecondFires(addr, m);
    assert Run(m, addr, [round]).Some? && addr(1) in FiredBy(m, round);
    hide IndexesAgree;
    AgreementOfRuns(addr, steps);
    assert addr(0) != addr(1);
  }

  lemma SecondFires(addr: nat -> Ptr, m: Manager)
    requires m == AddTimer(AddTimer(EMPTY, addr, Request(2, 0)), addr, Request(0, 0))
    ensures addr(1) in Pointers(Expired(m, 1))
  {
    ExpiredLists(m, 1);
    hide Expired;
    assert (0, addr(1)) in Expired(m, 1);
  }

  // ---- the manager object ----

  class TimerManager {
    const addr: nat -> Ptr
    var heap: map<Ptr, Timer>
    var timers: set<Entry>
    var active: set<ActiveTimer>
    var nextTimerId: nat

    ghost function Abs(): Manager
      reads this
    {
      Manager(heap, timers, active, nextTimerId)
    }

    constructor (addr: nat -> Ptr)
      ensures Abs() == EMPTY && this.addr == addr
    {
      this.addr := addr;
      heap, timers, active, nextTimerId := map[], {}, {}, 0;
    }

    /** The returned id is the one `cancel` takes. */
    method Add(r: Request) returns (id: nat)
      modifies this
      ensures Abs() == AddTimer(old(Abs()), addr, r) && id == old(nextTimerId)
    {
      var timer := addr(nextTimerId);
      heap := heap[timer := Timer(r.expiration, r.interval)];
      timers := timers + {(r.expiration, timer)};
      id := nextTimerId;
      nextTimerId := nextTimerId + 1;
      active := active + {(timer, id)};
    }

    method CancelTimer(id: nat)
      requires addr(id) in heap
      modifies this
      ensures Abs() == Cancel(old(Abs()), addr, id)
    {
      var timer := addr(id);
      if (timer, id) in active {
        timers := timers - {(heap[timer].expiration, timer)};
        heap := heap - {timer};
        active := active - {(timer, id)};
      }
    }

    method AddEach(rs: seq<Request>)
      modifies this
      ensures Abs() == AddAll(old(Abs()), addr, rs)
    {
      for i := 0 to |rs|
        invariant Abs() == AddAll(old(Abs()), addr, rs[..i])
      {
        var id := Add(rs[i]);
        assert rs[..i + 1][..i] == rs[..i];
      }
      assert rs[..|rs|] == rs;
    }

    method RunCallbacks(fired: seq<Entry>, adds: Ptr -> seq<Request>)
      modifies this
      ensures Abs() == AddAll(old(Abs()), addr, Requests(fired, adds))
    {
      ghost var m := Abs();
      for i := 0 to |fired|
        invariant Abs() == AddAll(m, addr, Requests(fired[..i], adds))
      {
        AddEach(adds(fired[i].1));
        assert fired[..i + 1][..i] == fired[..i];
        AddAllAppend(m, addr, Requests(fired[..i], adds), adds(fired[i].1));
      }
      assert fired[..|fired|] == fired;
    }

    method RestartOrDelete(fired: seq<Entry>, clock: Ptr -> int)
      modifies this
      ensures Abs() == FinishAll(old(Abs()), clock, fired)
    {
      ghost var m := Abs();
      for i := 0 to |fired|
        invariant Abs() == FinishAll(m, clock, fired[..i])
      {
        FinishOne(fired[i].1, clock);
        assert fired[..i + 1][..i] == fired[..i];
      }
      assert fired[..|fired|] == fired;
    }

    /** `processTimers`; returns the timers whose callbacks ran, in order. */
    method ProcessTimers(now: int, adds: Ptr -> seq<Request>, clock: Ptr -> int) returns (fired: seq<Entry>)
      modifies this
      ensures fired == Expired(old(Abs()), now)
      ensures Abs() == Process(old(Abs()), addr, now, adds, clock)
    {
      hide InOrder, FinishAll, AddAll, Requests;
      var order := InOrder(timers);
      fired := order[..LowerBound(order, (now, NULLPTR))];
      timers := set e | e in timers && e !in fired;
      EraseIdZero(fired);
      assert Abs() == TakeOut(old(Abs()), fired);
      RunCallbacks(fired, adds);
      RestartOrDelete(fired, clock);
    }

    method EraseIdZero(fired: seq<Entry>)
      modifies this`active
      ensures active == set a | a in old(active) && !(a.1 == 0 && exists e | e in fired :: e.1 == a.0)
    {
      for i := 0 to |fired|
        invariant active == set a | a in old(active) && !(a.1 == 0 && exists j | 0 <= j < i :: fired[j].1 == a.0)
      {
        active := active - {(fired[i].1, 0)};
      }
    }

    method FinishOne(p: Ptr, clock: Ptr -> int)
      modifies this
      ensures Abs() == Finish(old(Abs()), clock, p)
    {
      if p in heap {
        if heap[p].Repeat() {
          heap := heap[p := Timer(clock(p) + heap[p].interval, heap[p].interval)];
          timers := timers + {(heap[p].expiration, p)};
          active := active + {(p, 0)};
        } else {
          heap := heap - {p};
        }
      }
    }
  }

  lemma {:induction false} AddAllAppend(m: Manager, addr: nat -> Ptr, rs: seq<Request>, more: seq<Request>)
    ensures AddAll(m, addr, rs + more) == AddAll(AddAll(m, addr, rs), addr, more)
    decreases |more|
  {
    if more == [] {
      assert rs + more == rs;
    } else {
      var n := |more| - 1;
      assert (rs + more)[..|rs + more| - 1] == rs + more[..n];
      AddAllAppend(m, addr, rs, more[..n]);
    }
  }
}

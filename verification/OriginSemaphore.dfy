/** The per-origin semaphore: permits handed on in arrival order, waiters that may abort,
    release closures that may be called again. */
module OriginSemaphore {

  type Origin = string

  /** One call of `acquire`, by the order calls were made in: what its promise and its release
      closure have come to. */
  datatype Ticket =
    | Waits(origin: Origin)
    | Holds(origin: Origin)
    | Released(origin: Origin)
    | Aborted(origin: Origin)

  datatype Sem = Sem(limit: nat, active: map<Origin, int>, waiters: map<Origin, seq<nat>>, tickets: seq<Ticket>)

  function New(limit: nat): Sem { Sem(limit, map[], map[], []) }

  function ActiveAt(s: Sem, o: Origin): int { if o in s.active then s.active[o] else 0 }

  function QueueAt(s: Sem, o: Origin): seq<nat> { if o in s.waiters then s.waiters[o] else [] }

  function Acquire(s: Sem, o: Origin): Sem {
    if ActiveAt(s, o) < s.limit then
      s.(active := s.active[o := ActiveAt(s, o) + 1], tickets := s.tickets + [Holds(o)])
    else
      s.(waiters := s.waiters[o := QueueAt(s, o) + [|s.tickets|]], tickets := s.tickets + [Waits(o)])
  }

  predicate MayAbort(s: Sem, t: nat) { t < |s.tickets| && s.tickets[t].Waits? }

  function Abort(s: Sem, t: nat): Sem
    requires MayAbort(s, t)
  {
    var o := s.tickets[t].origin;
    s.(waiters := s.waiters[o := Without(QueueAt(s, o), t)], tickets := s.tickets[t := Aborted(o)])
  }

  function Without(queue: seq<nat>, t: nat): seq<nat> {
    if queue == [] then [] else if queue[0] == t then queue[1..] else [queue[0]] + Without(queue[1..], t)
  }

  /** The closure exists once the promise has resolved. */
  predicate MayRelease(s: Sem, t: nat) { t < |s.tickets| && (s.tickets[t].Holds? || s.tickets[t].Released?) }

  function Release(s: Sem, t: nat): Sem
    requires MayRelease(s, t)
  {
    var o := s.tickets[t].origin;
    var s' := s.(tickets := s.tickets[t := Released(o)]);
    var queue := QueueAt(s, o);
    if s.tickets[t].Released? then s
    else if queue != [] then
      s'.(waiters := s.waiters[o := queue[1..]],
          tickets := if queue[0] < |s.tickets| then s'.tickets[queue[0] := Holds(o)] else s'.tickets)
    else
      var left := (if o in s.active then s.active[o] else 1) - 1;
      s'.(active := s.active[o := if left < 0 then 0 else left])
  }

  // ---------------------------------------------------------------------------------------

  datatype Event = Acquired(origin: Origin) | AbortedNow(ticket: nat) | ReleasedNow(ticket: nat)

  predicate Enabled(s: Sem, e: Event) {
    match e
    case Acquired(_) => true
    case AbortedNow(t) => MayAbort(s, t)
    case ReleasedNow(t) => MayRelease(s, t)
  }

  function Apply(s: Sem, e: Event): Sem
    requires Enabled(s, e)
  {
    match e
    case Acquired(o) => Acquire(s, o)
    case AbortedNow(t) => Abort(s, t)
    case ReleasedNow(t) => Release(s, t)
  }

  ghost predicate Run(s: Sem, events: seq<Event>, t: Sem)
    decreases |events|
  {
    if events == [] then s == t
    else Enabled(s, events[0]) && Run(Apply(s, events[0]), events[1..], t)
  }

  // ---------------------------------------------------------------------------------------

  /** The permits given at an origin and not given back. */
  ghost function Holders(s: Sem, o: Origin): set<nat> { set t: nat | t < |s.tickets| && s.tickets[t] == Holds(o) }

  ghost predicate Sorted(q: seq<nat>) { forall m, n :: 0 <= m < n < |q| ==> q[m] < q[n] }

  /** `q` lists the tickets that wait at `o`. */
  ghost predicate Lists(tickets: seq<Ticket>, q: seq<nat>, o: Origin) {
    && (forall n :: 0 <= n < |q| ==> q[n] < |tickets| && tickets[q[n]] == Waits(o))
    && (forall t: nat :: t < |tickets| && tickets[t] == Waits(o) ==> t in q)
  }

  /** The queue is the waiting tickets, in the order they arrived. */
  ghost predicate QueueRight(s: Sem, o: Origin) {
    Lists(s.tickets, QueueAt(s, o), o) && Sorted(QueueAt(s, o))
  }

  ghost predicate CountRight(s: Sem, o: Origin) {
    && ActiveAt(s, o) == |Holders(s, o)|
    && ActiveAt(s, o) <= s.limit
    && (QueueAt(s, o) != [] ==> ActiveAt(s, o) == s.limit)
  }

  predicate Granted(t: Ticket) { t.Holds? || t.Released? }

  /** Nobody was let in past a waiter who came first. */
  ghost predicate FirstInFirstOut(s: Sem) {
    forall i: nat, j: nat :: i < j < |s.tickets| && s.tickets[i].Waits? && s.tickets[j].origin == s.tickets[i].origin ==>
      !Granted(s.tickets[j])
  }

  ghost predicate Inv(s: Sem) {
    (forall o :: QueueRight(s, o) && CountRight(s, o)) && FirstInFirstOut(s)
  }

  lemma {:induction false} WithoutRight(queue: seq<nat>, t: nat)
    requires Sorted(queue)
    ensures forall x :: x in Without(queue, t) <==> x in queue && x != t
    ensures Sorted(Without(queue, t))
  {
    if queue != [] {
      var rest := queue[1..];
      assert queue == [queue[0]] + rest;
      forall x | x in rest ensures queue[0] < x { }
      WithoutRight(rest, t);
      if queue[0] != t {
        var w := Without(rest, t);
        forall n | 0 <= n < |w| ensures queue[0] < w[n] { assert w[n] in w; }
        assert Sorted([queue[0]] + w);
      }
    }
  }

  lemma AcquireKeepsQueue(s: Sem, o: Origin, p: Origin)
    requires QueueRight(s, p)
    ensures QueueRight(Acquire(s, o), p)
  {
    var t, n, q := Acquire(s, o), |s.tickets|, QueueAt(s, p);
    if p == o && t.tickets[n].Waits? {
      assert QueueAt(t, p) == q + [n];
      assert (q + [n])[|q|] == n;
    } else {
      assert QueueAt(t, p) == q;
    }
    forall x: nat | x < |t.tickets| && t.tickets[x] == Waits(p) ensures x in QueueAt(t, p) {
      if x < n { assert s.tickets[x] == Waits(p) && x in q; }
    }
  }

  lemma AcquireKeepsCount(s: Sem, o: Origin, p: Origin)
    requires CountRight(s, p)
    ensures CountRight(Acquire(s, o), p)
  {
    var t, n := Acquire(s, o), |s.tickets|;
    if t.tickets[n] == Holds(p) {
      assert n !in Holders(s, p);
      assert Holders(t, p) == Holders(s, p) + {n};
    } else {
      assert Holders(t, p) == Holders(s, p);
      assert ActiveAt(t, p) == ActiveAt(s, p);
    }
  }

  lemma AcquireKeepsInv(s: Sem, o: Origin)
    requires Inv(s)
    ensures Inv(Acquire(s, o))
  {
    forall p ensures QueueRight(Acquire(s, o), p) && CountRight(Acquire(s, o), p) {
      assert QueueRight(s, p) && CountRight(s, p);
      AcquireKeepsQueue(s, o, p);
      AcquireKeepsCount(s, o, p);
    }
    assert CountRight(s, o) && QueueRight(s, o);
  }

  lemma AbortKeepsQueue(s: Sem, i: nat, p: Origin)
    requires QueueRight(s, p) && MayAbort(s, i)
    ensures QueueRight(Abort(s, i), p)
  {
    var t, o := Abort(s, i), s.tickets[i].origin;
    if p == o {
      var q, w := QueueAt(s, o), QueueAt(t, o);
      WithoutRight(q, i);
      forall n | 0 <= n < |w| ensures w[n] < |t.tickets| && t.tickets[w[n]] == Waits(o) {
        assert w[n] in w && w[n] in q && w[n] != i;
      }
    } else {
      assert QueueAt(t, p) == QueueAt(s, p);
    }
  }

  /** An abort moves no permit anywhere. */
  lemma AbortKeepsInv(s: Sem, i: nat)
    requires Inv(s) && MayAbort(s, i)
    ensures Inv(Abort(s, i))
    ensures forall p :: Holders(Abort(s, i), p) == Holders(s, p) && ActiveAt(Abort(s, i), p) == ActiveAt(s, p)
  {
    var t := Abort(s, i);
    forall p ensures Holders(t, p) == Holders(s, p) { }
    forall p ensures QueueRight(t, p) && CountRight(t, p) {
      assert QueueRight(s, p) && CountRight(s, p);
      AbortKeepsQueue(s, i, p);
      assert QueueAt(s, p) == [] ==> QueueAt(t, p) == [];
    }
  }

  lemma ReleaseKeepsInv(s: Sem, i: nat)
    requires Inv(s) && MayRelease(s, i)
    ensures Inv(Release(s, i))
  {
    if s.tickets[i].Holds? {
      if QueueAt(s, s.tickets[i].origin) == [] { GiveBackKeepsInv(s, i); } else { HandOnKeepsInv(s, i); }
    }
  }

  lemma GiveBackKeepsInv(s: Sem, i: nat)
    requires Inv(s) && i < |s.tickets| && s.tickets[i].Holds? && QueueAt(s, s.tickets[i].origin) == []
    ensures Inv(Release(s, i))
    ensures ActiveAt(Release(s, i), s.tickets[i].origin) == ActiveAt(s, s.tickets[i].origin) - 1
  {
    var t, o := Release(s, i), s.tickets[i].origin;
    assert i in Holders(s, o) && CountRight(s, o);
    assert Holders(t, o) == Holders(s, o) - {i};
    forall p ensures QueueRight(t, p) && CountRight(t, p) {
      assert QueueRight(s, p) && CountRight(s, p);
      if p != o { assert Holders(t, p) == Holders(s, p); }
    }
  }

  /** The hand-off: the count does not move, and the permit goes to the waiter that came first. */
  lemma HandOn(s: Sem, i: nat) returns (next: nat)
    requires Inv(s) && i < |s.tickets| && s.tickets[i].Holds? && QueueAt(s, s.tickets[i].origin) != []
    ensures next < |s.tickets| && s.tickets[next] == Waits(s.tickets[i].origin)
    ensures forall j: nat :: j < next ==> s.tickets[j] != s.tickets[next]
    ensures Release(s, i).active == s.active
    ensures Release(s, i).tickets == s.tickets[i := Released(s.tickets[i].origin)][next := Holds(s.tickets[i].origin)]
    ensures Release(s, i).waiters == s.waiters[s.tickets[i].origin := QueueAt(s, s.tickets[i].origin)[1..]]
    ensures next == QueueAt(s, s.tickets[i].origin)[0]
  {
    var o := s.tickets[i].origin;
    var q := QueueAt(s, o);
    next := q[0];
    assert QueueRight(s, o);
  }

  lemma HandOnKeepsQueue(s: Sem, i: nat, p: Origin)
    requires i < |s.tickets| && s.tickets[i].Holds? && QueueAt(s, s.tickets[i].origin) != []
    requires QueueRight(s, s.tickets[i].origin) && QueueRight(s, p)
    ensures QueueRight(Release(s, i), p)
  {
    var t, o, q := Release(s, i), s.tickets[i].origin, QueueAt(s, p);
    if p == o {
      assert QueueAt(t, o) == q[1..];
      assert s.tickets[q[0]] == Waits(o);
      QueueOfTheRest(s.tickets, t.tickets, q, o);
    } else {
      assert QueueAt(t, p) == q;
      assert s.tickets[QueueAt(s, o)[0]] == Waits(o);
      assert forall x: nat :: x < |t.tickets| ==> (t.tickets[x] == Waits(p) <==> s.tickets[x] == Waits(p));
    }
  }

  lemma QueueOfTheRest(was: seq<Ticket>, now: seq<Ticket>, q: seq<nat>, o: Origin)
    requires Lists(was, q, o) && Sorted(q) && q != [] && |now| == |was|
    requires forall x: nat :: x < |was| ==> (now[x] == Waits(o) <==> was[x] == Waits(o) && x != q[0])
    ensures Lists(now, q[1..], o) && Sorted(q[1..])
  {
    var rest := q[1..];
    assert forall n :: 0 <= n < |rest| ==> rest[n] == q[n + 1] && q[0] < q[n + 1];
    forall x: nat | x < |now| && now[x] == Waits(o) ensures x in rest {
      assert was[x] == Waits(o) && x in q && x != q[0];
      assert q == [q[0]] + rest;
    }
  }

  lemma HandOnKeepsCount(s: Sem, i: nat, p: Origin)
    requires i < |s.tickets| && s.tickets[i].Holds? && QueueAt(s, s.tickets[i].origin) != []
    requires QueueRight(s, s.tickets[i].origin) && CountRight(s, p)
    ensures CountRight(Release(s, i), p)
  {
    var t, o := Release(s, i), s.tickets[i].origin;
    var next := QueueAt(s, o)[0];
    assert ActiveAt(t, p) == ActiveAt(s, p);
    if p == o {
      assert i in Holders(s, o) && next !in Holders(s, o) && next != i;
      assert Holders(t, o) == Holders(s, o) - {i} + {next};
    } else {
      assert Holders(t, p) == Holders(s, p) && QueueAt(t, p) == QueueAt(s, p);
    }
  }

  lemma HandOnKeepsInv(s: Sem, i: nat)
    requires Inv(s) && i < |s.tickets| && s.tickets[i].Holds? && QueueAt(s, s.tickets[i].origin) != []
    ensures Inv(Release(s, i))
  {
    var t, o := Release(s, i), s.tickets[i].origin;
    assert QueueRight(s, o);
    forall p ensures QueueRight(t, p) && CountRight(t, p) {
      assert QueueRight(s, p) && CountRight(s, p);
      HandOnKeepsQueue(s, i, p);
      HandOnKeepsCount(s, i, p);
    }
    var next := HandOn(s, i);
    HandOnKeepsOrder(s, i, next);
  }

  lemma HandOnKeepsOrder(s: Sem, i: nat, next: nat)
    requires FirstInFirstOut(s) && i < |s.tickets| && s.tickets[i].Holds? && next < |s.tickets| && s.tickets[next] == Waits(s.tickets[i].origin)
    requires forall j: nat :: j < next ==> s.tickets[j] != s.tickets[next]
    requires Release(s, i).tickets == s.tickets[i := Released(s.tickets[i].origin)][next := Holds(s.tickets[i].origin)]
    ensures FirstInFirstOut(Release(s, i))
  {
    var t := Release(s, i);
    forall a: nat, b: nat | a < b < |t.tickets| && t.tickets[a].Waits? && t.tickets[b].origin == t.tickets[a].origin
      ensures !Granted(t.tickets[b])
    {
      assert s.tickets[a] == t.tickets[a] && s.tickets[b].origin == t.tickets[b].origin;
    }
  }

  lemma StepKeepsInv(s: Sem, e: Event)
    requires Inv(s) && Enabled(s, e)
    ensures Inv(Apply(s, e))
  {
    match e
    case Acquired(o) => AcquireKeepsInv(s, o);
    case AbortedNow(i) => AbortKeepsInv(s, i);
    case ReleasedNow(i) => ReleaseKeepsInv(s, i);
  }

  lemma {:induction false} RunKeepsInv(s: Sem, events: seq<Event>, t: Sem)
    requires Inv(s) && Run(s, events, t)
    ensures Inv(t)
    ensures t.limit == s.limit
    decreases |events|
  {
    if events != [] {
      StepKeepsInv(s, events[0]);
      RunKeepsInv(Apply(s, events[0]), events[1..], t);
    }
  }

  lemma NewHasInv(limit: nat)
    ensures Inv(New(limit))
  {
    forall o ensures QueueRight(New(limit), o) && CountRight(New(limit), o) { assert Holders(New(limit), o) == {}; }
  }

  /** In every sequence of acquires, aborts and releases, repeated or not: the count is the
      permits out, never above the limit; anybody waiting means every permit is out; and the
      queue is everybody still waiting, in order of arrival, with nobody let past them. */
  lemma PermitsAreExact(limit: nat, events: seq<Event>, t: Sem, o: Origin)
    requires Run(New(limit), events, t)
    ensures ActiveAt(t, o) == |Holders(t, o)| <= limit
    ensures QueueAt(t, o) != [] ==> ActiveAt(t, o) == limit
    ensures QueueRight(t, o)
    ensures FirstInFirstOut(t)
  {
    NewHasInv(limit);
    RunKeepsInv(New(limit), events, t);
    assert CountRight(t, o) && QueueRight(t, o);
  }

  /** A ticket that aborted, or gave its permit back, never holds one again. */
  lemma {:induction false} OverIsOver(s: Sem, events: seq<Event>, t: Sem, i: nat)
    requires Inv(s) && Run(s, events, t)
    requires i < |s.tickets| && (s.tickets[i].Aborted? || s.tickets[i].Released?)
    ensures i < |t.tickets| && t.tickets[i] == s.tickets[i]
    decreases |events|
  {
    if events != [] {
      var e := events[0];
      StepKeepsInv(s, e);
      if e.ReleasedNow? && s.tickets[e.ticket].Holds? && QueueAt(s, s.tickets[e.ticket].origin) != [] {
        var next := HandOn(s, e.ticket);
      }
      OverIsOver(Apply(s, e), events[1..], t, i);
    }
  }

  // ---------------------------------------------------------------------------------------

  /** The class: its two maps, and beside them what each call's closures have come to. */
  class Semaphore {
    const limit: nat
    var active: map<Origin, int>
    var waiters: map<Origin, seq<nat>>
    var tickets: seq<Ticket>

    function State(): Sem reads this { Sem(limit, active, waiters, tickets) }

    constructor (limit: nat)
      ensures State() == New(limit) && Inv(State())
    {
      this.limit := limit;
      active, waiters, tickets := map[], map[], [];
      new;
      NewHasInv(limit);
    }

    method AcquireAt(origin: Origin) returns (ticket: nat, immediately: bool)
      requires Inv(State())
      modifies this
      ensures State() == Acquire(old(State()), origin) && Inv(State())
      ensures ticket == old(|tickets|) && tickets[ticket] == if immediately then Holds(origin) else Waits(origin)
    {
      AcquireKeepsInv(State(), origin);
      ticket := |tickets|;
      immediately := (if origin in active then active[origin] else 0) < limit;
      if !immediately {
        waiters := waiters[origin := (if origin in waiters then waiters[origin] else []) + [ticket]];
        tickets := tickets + [Waits(origin)];
      } else {
        active := active[origin := (if origin in active then active[origin] else 0) + 1];
        tickets := tickets + [Holds(origin)];
      }
    }

    method AbortTicket(ticket: nat)
      requires Inv(State()) && MayAbort(State(), ticket)
      modifies this
      ensures State() == Abort(old(State()), ticket) && Inv(State())
      ensures active == old(active)
    {
      AbortKeepsInv(State(), ticket);
      var o := tickets[ticket].origin;
      var queue := if o in waiters then waiters[o] else [];
      var index := 0;
      while index < |queue| && queue[index] != ticket
        invariant 0 <= index <= |queue|
        invariant forall n :: 0 <= n < index ==> queue[n] != ticket
      {
        index := index + 1;
      }
      WithoutAt(queue, ticket, index);
      waiters := waiters[o := if index < |queue| then queue[..index] + queue[index + 1..] else queue];
      tickets := tickets[ticket := Aborted(o)];
    }

    /** The release closure of a ticket, called for the first time or again. */
    method ReleaseTicket(ticket: nat)
      requires Inv(State()) && MayRelease(State(), ticket)
      modifies this
      ensures State() == Release(old(State()), ticket) && Inv(State())
      ensures old(tickets)[ticket].Released? ==> State() == old(State())
    {
      ReleaseKeepsInv(State(), ticket);
      if tickets[ticket].Released? { return; }
      var o := tickets[ticket].origin;
      assert QueueRight(State(), o);
      tickets := tickets[ticket := Released(o)];
      if o in waiters && |waiters[o]| > 0 {
        var waiter := waiters[o][0];
        waiters := waiters[o := waiters[o][1..]];
        tickets := tickets[waiter := Holds(o)];
      } else {
        var left := (if o in active then active[o] else 1) - 1;
        active := active[o := if left < 0 then 0 else left];
      }
    }
  }

  lemma {:induction false} WithoutAt(queue: seq<nat>, t: nat, at: nat)
    requires at <= |queue| && forall n :: 0 <= n < at ==> queue[n] != t
    requires at < |queue| ==> queue[at] == t
    ensures Without(queue, t) == if at < |queue| then queue[..at] + queue[at + 1..] else queue
  {
    if at > 0 {
      WithoutAt(queue[1..], t, at - 1);
    }
  }
}

/** A scan: any number of fetches at once, on one request budget and one semaphore. One event
    is what one fetch does between two awaits, in any order across fetches. And the fetch itself,
    held to the events of this machine and to what `FetchFrom` says it does. */
module SharedScan {
  import opened Basics
  import opened OriginSemaphore
  import opened SafeFetch

  type FetchId = nat

  datatype Pc =
    | Looping                 // at the top of the loop
    | Looking                 // its request is paid for, the name is being resolved
    | Queued(ticket: nat)     // `acquire` was called
    | Flying(ticket: nat)     // the request is out, the permit held
    | Over

  datatype Fetching = Fetching(schemeWasMissing: bool, url: Url, redirects: nat, usedFallback: bool, sent: nat, pc: Pc)

  datatype Scan = Scan(maximum: nat, used: nat, sent: nat, sem: Sem, fetches: map<FetchId, Fetching>)

  function NewScan(maximum: nat, perOrigin: nat): Scan { Scan(maximum, 0, 0, New(perOrigin), map[]) }

  datatype ScanEvent =
    | Start(id: FetchId, url: Url, schemeWasMissing: bool)
    | Stopped(id: FetchId)                               // aborted at the top of the loop
    | Pay(id: FetchId)                                   // consume: goes on, or throws
    | LookupThrew(id: FetchId)
    | Ask(id: FetchId)                                   // acquire
    | AbortWait(id: FetchId)
    | Send(id: FetchId)
    | Reply(id: FetchId, reply: Option<Artifact>)        // answered or thrown: the permit goes back

  predicate On(s: Scan, i: FetchId) { i in s.fetches }

  predicate Can(s: Scan, e: ScanEvent) {
    match e
    case Start(i, _, _) => !On(s, i)
    case Stopped(i) => On(s, i) && s.fetches[i].pc.Looping?
    case Pay(i) => On(s, i) && s.fetches[i].pc.Looping?
    case LookupThrew(i) => On(s, i) && s.fetches[i].pc.Looking?
    case Ask(i) => On(s, i) && s.fetches[i].pc.Looking?
    case AbortWait(i) => On(s, i) && s.fetches[i].pc.Queued? && MayAbort(s.sem, s.fetches[i].pc.ticket)
    case Send(i) => On(s, i) && s.fetches[i].pc.Queued? && s.fetches[i].pc.ticket < |s.sem.tickets| && s.sem.tickets[s.fetches[i].pc.ticket].Holds?
    case Reply(i, _) => On(s, i) && s.fetches[i].pc.Flying? && MayRelease(s.sem, s.fetches[i].pc.ticket)
  }

  function Put(s: Scan, i: FetchId, f: Fetching): Scan { s.(fetches := s.fetches[i := f]) }

  /** The turn's end, with the permit already back. */
  function Landed(f: Fetching, reply: Option<Artifact>, validate: Redirect): Fetching {
    match reply
    case None => f.(pc := Over)
    case Some(a) =>
      match Decide(f.schemeWasMissing, f.url, f.redirects, f.usedFallback, a, validate)
      case Again(url, redirects, usedFallback) => f.(url := url, redirects := redirects, usedFallback := usedFallback, pc := Looping)
      case _ => f.(pc := Over)
  }

  function Do(s: Scan, e: ScanEvent, validate: Redirect): Scan
    requires Can(s, e)
  {
    match e
    case Start(i, url, missing) => Put(s, i, Fetching(missing, url, 0, false, 0, Looping))
    case Stopped(i) => Put(s, i, s.fetches[i].(pc := Over))
    case Pay(i) =>
      if s.used >= s.maximum then Put(s, i, s.fetches[i].(pc := Over))
      else Put(s, i, s.fetches[i].(pc := Looking)).(used := s.used + 1)
    case LookupThrew(i) => Put(s, i, s.fetches[i].(pc := Over))
    case Ask(i) => Put(s, i, s.fetches[i].(pc := Queued(|s.sem.tickets|))).(sem := Acquire(s.sem, OriginOf(s.fetches[i].url)))
    case AbortWait(i) => Put(s, i, s.fetches[i].(pc := Over)).(sem := Abort(s.sem, s.fetches[i].pc.ticket))
    case Send(i) => Put(s, i, s.fetches[i].(pc := Flying(s.fetches[i].pc.ticket), sent := s.fetches[i].sent + 1)).(sent := s.sent + 1)
    case Reply(i, reply) => Put(s, i, Landed(s.fetches[i], reply, validate)).(sem := Release(s.sem, s.fetches[i].pc.ticket))
  }

  ghost predicate ScanRun(s: Scan, events: seq<ScanEvent>, validate: Redirect, t: Scan)
    decreases |events|
  {
    if events == [] then s == t
    else Can(s, events[0]) && ScanRun(Do(s, events[0], validate), events[1..], validate, t)
  }

  // ---------------------------------------------------------------------------------------
  // Whose the permits are.

  function TicketOf(f: Fetching): set<nat> { if f.pc.Queued? || f.pc.Flying? then {f.pc.ticket} else {} }

  /** A fetch that asked has a ticket for its own origin, and holds its permit once it flies. */
  ghost predicate TicketRight(tickets: seq<Ticket>, f: Fetching) {
    forall k :: k in TicketOf(f) ==>
      k < |tickets| && (tickets[k] == Holds(OriginOf(f.url)) || (f.pc.Queued? && tickets[k] == Waits(OriginOf(f.url))))
  }

  predicate Live(t: Ticket) { t.Holds? || t.Waits? }

  ghost predicate Owned(s: Scan, k: nat) { exists i :: i in s.fetches && k in TicketOf(s.fetches[i]) }

  ghost predicate PermitsRight(s: Scan) {
    && (forall i :: i in s.fetches ==> TicketRight(s.sem.tickets, s.fetches[i]))
    && (forall i, j :: i in s.fetches && j in s.fetches && i != j ==> TicketOf(s.fetches[i]) !! TicketOf(s.fetches[j]))
    && (forall k: nat :: k < |s.sem.tickets| && Live(s.sem.tickets[k]) ==> Owned(s, k))
  }

  /** Every other ticket stays as it was, or is a waiter that is let in. */
  ghost predicate TicketsMove(a: seq<Ticket>, b: seq<Ticket>, mine: set<nat>) {
    |a| <= |b| && forall k: nat :: k < |a| && k !in mine ==> b[k] == a[k] || (a[k].Waits? && b[k] == Holds(a[k].origin))
  }

  lemma ReleaseMoves(s: Sem, k: nat)
    requires Inv(s) && k < |s.tickets| && s.tickets[k].Holds?
    ensures Inv(Release(s, k)) && Release(s, k).limit == s.limit
    ensures |Release(s, k).tickets| == |s.tickets| && TicketsMove(s.tickets, Release(s, k).tickets, {k})
    ensures Release(s, k).tickets[k].Released?
  {
    ReleaseKeepsInv(s, k);
    if QueueAt(s, s.tickets[k].origin) != [] {
      var next := HandOn(s, k);
    }
  }

  function Mine(s: Scan, e: ScanEvent): set<nat> { if e.id in s.fetches then TicketOf(s.fetches[e.id]) else {} }

  /** What one event does to the tickets: it may add one, which is then its own; it may end its
      own; and the rest move as a semaphore moves them. */
  ghost predicate SemFrame(s: Scan, e: ScanEvent, t: Scan) {
    && Inv(t.sem) && t.sem.limit == s.sem.limit
    && TicketsMove(s.sem.tickets, t.sem.tickets, Mine(s, e))
    && e.id in t.fetches
    && t.fetches == s.fetches[e.id := t.fetches[e.id]]
    && var mine := TicketOf(t.fetches[e.id]);
    && TicketRight(t.sem.tickets, t.fetches[e.id])
    && (forall k: nat :: k < |t.sem.tickets| && Live(t.sem.tickets[k]) && (k >= |s.sem.tickets| || k in Mine(s, e)) ==> k in mine)
    && (forall k :: k in mine ==> k >= |s.sem.tickets| || k in Mine(s, e))
  }

  lemma AskMovesTickets(s: Scan, e: ScanEvent, validate: Redirect)
    requires Inv(s.sem) && PermitsRight(s) && Can(s, e) && e.Ask?
    ensures SemFrame(s, e, Do(s, e, validate))
  {
    AcquireKeepsInv(s.sem, OriginOf(s.fetches[e.id].url));
  }

  lemma AbortMovesTickets(s: Scan, e: ScanEvent, validate: Redirect)
    requires Inv(s.sem) && PermitsRight(s) && Can(s, e) && e.AbortWait?
    ensures SemFrame(s, e, Do(s, e, validate))
  {
    AbortKeepsInv(s.sem, s.fetches[e.id].pc.ticket);
  }

  lemma ReplyMovesTickets(s: Scan, e: ScanEvent, validate: Redirect)
    requires Inv(s.sem) && PermitsRight(s) && Can(s, e) && e.Reply?
    ensures SemFrame(s, e, Do(s, e, validate))
  {
    var k := s.fetches[e.id].pc.ticket;
    assert TicketRight(s.sem.tickets, s.fetches[e.id]) && k in TicketOf(s.fetches[e.id]);
    ReleaseMoves(s.sem, k);
    assert TicketOf(Landed(s.fetches[e.id], e.reply, validate)) == {};
  }

  lemma DoMovesTickets(s: Scan, e: ScanEvent, validate: Redirect)
    requires Inv(s.sem) && PermitsRight(s) && Can(s, e)
    ensures SemFrame(s, e, Do(s, e, validate))
  {
    if e.Ask? { AskMovesTickets(s, e, validate); return; }
    if e.AbortWait? { AbortMovesTickets(s, e, validate); return; }
    if e.Reply? { ReplyMovesTickets(s, e, validate); return; }
    var t := Do(s, e, validate);
    assert t.sem == s.sem;
    assert e.id in s.fetches ==> TicketRight(s.sem.tickets, s.fetches[e.id]);
    assert TicketOf(t.fetches[e.id]) == Mine(s, e);
  }

  lemma FrameKeepsPermits(s: Scan, e: ScanEvent, t: Scan)
    requires PermitsRight(s) && SemFrame(s, e, t)
    ensures PermitsRight(t)
  {
    forall j | j in t.fetches ensures TicketRight(t.sem.tickets, t.fetches[j]) {
      if j != e.id {
        assert TicketRight(s.sem.tickets, s.fetches[j]);
        assert e.id in s.fetches ==> TicketOf(s.fetches[j]) !! TicketOf(s.fetches[e.id]);
      }
    }
    forall j | j in t.fetches && j != e.id ensures TicketOf(t.fetches[j]) !! TicketOf(t.fetches[e.id]) {
      assert TicketRight(s.sem.tickets, s.fetches[j]);
      assert e.id in s.fetches ==> TicketOf(s.fetches[j]) !! TicketOf(s.fetches[e.id]);
    }
    forall k: nat | k < |t.sem.tickets| && Live(t.sem.tickets[k]) ensures Owned(t, k) {
      if k >= |s.sem.tickets| || k in Mine(s, e) {
        assert k in TicketOf(t.fetches[e.id]);
      } else {
        assert Owned(s, k);
        var i :| i in s.fetches && k in TicketOf(s.fetches[i]);
        assert i != e.id && k in TicketOf(t.fetches[i]);
      }
    }
  }

  // ---------------------------------------------------------------------------------------
  // What it all costs.

  function Extra(f: Fetching): nat { if f.usedFallback then 1 else 0 }

  predicate FetchWithin(f: Fetching) {
    && f.redirects <= REDIRECT_LIMIT && (f.usedFallback ==> f.schemeWasMissing)
    && f.sent <= f.redirects + Extra(f) + (if f.pc.Flying? || f.pc.Over? then 1 else 0)
  }

  predicate Paid(f: Fetching) { f.pc.Looking? || f.pc.Queued? }

  /** The fetches that have paid for a request they have not sent. */
  function Credit(s: Scan): set<FetchId> { set i | i in s.fetches && Paid(s.fetches[i]) }

  ghost predicate BudgetRight(s: Scan) {
    && s.sent + |Credit(s)| <= s.used <= s.maximum
    && forall i :: i in s.fetches ==> FetchWithin(s.fetches[i])
  }

  lemma DoStaysWithin(s: Scan, e: ScanEvent, validate: Redirect)
    requires BudgetRight(s) && Can(s, e)
    ensures FetchWithin(Do(s, e, validate).fetches[e.id])
  {
    assert e.id in s.fetches ==> FetchWithin(s.fetches[e.id]);
  }

  lemma DoKeepsCredit(s: Scan, e: ScanEvent, validate: Redirect)
    requires Can(s, e)
    ensures var t := Do(s, e, validate);
            && (e.Pay? && s.used < s.maximum ==> e.id !in Credit(s) && Credit(t) == Credit(s) + {e.id} && t.used == s.used + 1)
            && (e.Send? ==> e.id in Credit(s) && Credit(t) == Credit(s) - {e.id} && t.sent == s.sent + 1)
            && (!e.Pay? || s.used >= s.maximum ==> Credit(t) <= Credit(s) && t.used == s.used)
            && (!e.Send? ==> t.sent == s.sent)
            && t.maximum == s.maximum
  {
    var t := Do(s, e, validate);
    assert forall j :: j in s.fetches && j != e.id ==> t.fetches[j] == s.fetches[j];
  }

  lemma DoKeepsBudget(s: Scan, e: ScanEvent, validate: Redirect)
    requires BudgetRight(s) && Can(s, e)
    ensures BudgetRight(Do(s, e, validate)) && Do(s, e, validate).maximum == s.maximum
  {
    var t := Do(s, e, validate);
    DoStaysWithin(s, e, validate);
    DoKeepsCredit(s, e, validate);
    if !e.Pay? || s.used >= s.maximum { SubsetSize(Credit(t), Credit(s)); }
    assert t.fetches == s.fetches[e.id := t.fetches[e.id]];
  }

  lemma {:induction false} ScanRunKeeps(s: Scan, events: seq<ScanEvent>, validate: Redirect, t: Scan)
    requires Inv(s.sem) && PermitsRight(s) && BudgetRight(s) && ScanRun(s, events, validate, t)
    ensures Inv(t.sem) && PermitsRight(t) && BudgetRight(t)
    ensures t.maximum == s.maximum && t.sem.limit == s.sem.limit
    decreases |events|
  {
    if events != [] {
      var e := events[0];
      DoMovesTickets(s, e, validate);
      FrameKeepsPermits(s, e, Do(s, e, validate));
      DoKeepsBudget(s, e, validate);
      ScanRunKeeps(Do(s, e, validate), events[1..], validate, t);
    }
  }

  ghost function InFlight(s: Scan, o: Origin): set<FetchId> {
    set i | i in s.fetches && s.fetches[i].pc.Flying? && OriginOf(s.fetches[i].url) == o
  }

  ghost function TicketsOf(s: Scan, ids: set<FetchId>): set<nat>
    requires ids <= s.fetches.Keys
  {
    set i | i in ids && s.fetches[i].pc.Flying? :: s.fetches[i].pc.ticket
  }

  lemma {:induction false} AsManyTickets(s: Scan, ids: set<FetchId>)
    requires PermitsRight(s) && ids <= s.fetches.Keys && forall i :: i in ids ==> s.fetches[i].pc.Flying?
    ensures |TicketsOf(s, ids)| == |ids|
  {
    if ids != {} {
      var i :| i in ids;
      AsManyTickets(s, ids - {i});
      forall j | j in ids && j != i ensures s.fetches[j].pc.ticket != s.fetches[i].pc.ticket {
        assert TicketOf(s.fetches[i]) !! TicketOf(s.fetches[j]);
      }
      assert TicketsOf(s, ids) == TicketsOf(s, ids - {i}) + {s.fetches[i].pc.ticket};
    }
  }

  /** The scanner's own figures are 18 and 2. However its fetches interleave, abort and fail, a
      scan sends at most what its budget allows, has at most the limit in flight per origin,
      and no fetch of it sends more than seven. */
  lemma ScanStaysWithinItsBudget(maximum: nat, perOrigin: nat, events: seq<ScanEvent>, validate: Redirect, t: Scan, o: Origin)
    requires ScanRun(NewScan(maximum, perOrigin), events, validate, t)
    ensures t.sent <= t.used <= maximum
    ensures |InFlight(t, o)| <= perOrigin
    ensures forall i :: i in t.fetches ==> t.fetches[i].sent <= if t.fetches[i].schemeWasMissing then 7 else 6
  {
    NewHasInv(perOrigin);
    assert Credit(NewScan(maximum, perOrigin)) == {};
    ScanRunKeeps(NewScan(maximum, perOrigin), events, validate, t);
    AsManyTickets(t, InFlight(t, o));
    forall k | k in TicketsOf(t, InFlight(t, o)) ensures k in Holders(t.sem, o) {
      var i :| i in InFlight(t, o) && t.fetches[i].pc.ticket == k;
      assert TicketRight(t.sem.tickets, t.fetches[i]) && k in TicketOf(t.fetches[i]);
    }
    SubsetSize(TicketsOf(t, InFlight(t, o)), Holders(t.sem, o));
    assert CountRight(t.sem, o);
  }

  /** Once every fetch is over, on whichever exit, no permit is out and nobody waits. */
  lemma EveryPermitComesBack(maximum: nat, perOrigin: nat, events: seq<ScanEvent>, validate: Redirect, t: Scan, o: Origin)
    requires ScanRun(NewScan(maximum, perOrigin), events, validate, t)
    requires forall i :: i in t.fetches ==> t.fetches[i].pc.Over?
    ensures ActiveAt(t.sem, o) == 0
    ensures QueueAt(t.sem, o) == []
  {
    NewHasInv(perOrigin);
    assert Credit(NewScan(maximum, perOrigin)) == {};
    ScanRunKeeps(NewScan(maximum, perOrigin), events, validate, t);
    assert CountRight(t.sem, o);
    forall k: nat | k < |t.sem.tickets| ensures !Live(t.sem.tickets[k]) { assert !Owned(t, k); }
    assert Holders(t.sem, o) == {};
    assert QueueRight(t.sem, o);
    if QueueAt(t.sem, o) != [] { QueuedIsLive(t.sem, o); }
  }

  lemma QueuedIsLive(s: Sem, o: Origin)
    requires QueueRight(s, o) && QueueAt(s, o) != []
    ensures exists k: nat :: k < |s.tickets| && Live(s.tickets[k])
  {
    assert Live(s.tickets[QueueAt(s, o)[0]]);
  }

  // ---------------------------------------------------------------------------------------
  // `fetch` itself, on a budget and a semaphore whose permits others may hold, with nobody in
  // between: a permit that is not there at once is waited for until the abort.

  class RequestBudget {
    const maximum: nat
    const semaphore: Semaphore
    var count: nat

    constructor (maximum: nat, perOrigin: nat)
      ensures this.maximum == maximum && count == 0
      ensures fresh(semaphore) && semaphore.State() == New(perOrigin)
    {
      this.maximum, count := maximum, 0;
      semaphore := new Semaphore(perOrigin);
    }

    ghost predicate Stands(s: Scan) reads this, semaphore {
      s.maximum == maximum && s.used == count && s.sem == semaphore.State() && Inv(s.sem)
    }

    method Consume() returns (ok: bool)
      modifies this`count
      ensures ok == (old(count) < maximum)
      ensures count == if ok then old(count) + 1 else old(count)
    {
      if count >= maximum { return false; }
      count := count + 1;
      return true;
    }
  }

  /** Some run of the scan leads from the one to the other. */
  ghost predicate Leads(s: Scan, t: Scan, validate: Redirect) { exists events :: ScanRun(s, events, validate, t) }

  lemma LeadsNowhere(s: Scan, validate: Redirect)
    ensures Leads(s, s, validate)
  {
    assert ScanRun(s, [], validate, s);
  }

  lemma LeadsOn(start: Scan, s: Scan, e: ScanEvent, validate: Redirect)
    requires Leads(start, s, validate) && Can(s, e)
    ensures Leads(start, Do(s, e, validate), validate)
  {
    var events :| ScanRun(start, events, validate, s);
    ScanRunOn(start, events, s, e, validate);
  }

  lemma {:induction false} ScanRunOn(start: Scan, events: seq<ScanEvent>, s: Scan, e: ScanEvent, validate: Redirect)
    requires ScanRun(start, events, validate, s) && Can(s, e)
    ensures ScanRun(start, events + [e], validate, Do(s, e, validate))
    decreases |events|
  {
    var more, t := events + [e], Do(s, e, validate);
    if events == [] {
      assert more == [e] && [e][1..] == [] && ScanRun(t, [], validate, t);
    } else {
      ScanRunOn(Do(start, events[0], validate), events[1..], s, e, validate);
      assert more[1..] == events[1..] + [e];
    }
  }

  /** What a semaphore lets in is what it did, and every ticket given out since is spent. */
  ghost predicate SameGates(a: Sem, b: Sem) {
    && b.limit == a.limit && a.tickets <= b.tickets
    && (forall o :: ActiveAt(b, o) == ActiveAt(a, o) && QueueAt(b, o) == QueueAt(a, o))
    && (forall k: nat :: |a.tickets| <= k < |b.tickets| ==> !Live(b.tickets[k]))
  }

  lemma TakenAndGivenBack(s: Sem, o: Origin)
    requires Inv(s) && ActiveAt(s, o) < s.limit
    ensures MayRelease(Acquire(s, o), |s.tickets|) && SameGates(s, Release(Acquire(s, o), |s.tickets|))
  {
    assert CountRight(s, o);
  }

  lemma WaitedAndAborted(s: Sem, o: Origin)
    requires Inv(s) && ActiveAt(s, o) >= s.limit
    ensures MayAbort(Acquire(s, o), |s.tickets|) && SameGates(s, Abort(Acquire(s, o), |s.tickets|))
  {
    var k, t := |s.tickets|, Acquire(s, o);
    assert QueueRight(s, o);
    WithoutLast(QueueAt(s, o), k);
    assert t.tickets[k] == Waits(o) && QueueAt(t, o) == QueueAt(s, o) + [k];
    var u := Abort(t, k);
    assert u.active == s.active && u.tickets == s.tickets + [Aborted(o)];
    forall p ensures QueueAt(u, p) == QueueAt(s, p) {
      if p != o { assert QueueAt(t, p) == QueueAt(s, p); }
    }
  }

  lemma {:induction false} WithoutLast(queue: seq<nat>, t: nat)
    requires t !in queue
    ensures Without(queue + [t], t) == queue
  {
    if queue == [] {
      assert queue + [t] == [t];
    } else {
      assert (queue + [t])[1..] == queue[1..] + [t];
      WithoutLast(queue[1..], t);
    }
  }

  /** Whether a permit is there at once. */
  function AtOnce(s: Sem): Permits { (turn: nat, o: Origin) => ActiveAt(s, o) < s.limit }

  datatype Met = Stop(outcome: Outcome) | Got(artifact: Artifact)

  /** How a turn ends that gets no artifact to decide on. */
  function StopOf(w: Turn, count: nat, maximum: nat, permit: bool): Option<Outcome> {
    if w.aborted then Some(AbortError)
    else if count >= maximum then Some(BudgetExhausted)
    else if !w.resolves then Some(OtherError)
    else if !permit then Some(AbortError)
    else if w.reply.None? then Some(OtherError)
    else None
  }

  predicate Asks(w: Turn, count: nat, maximum: nat, permit: bool) { !w.aborted && count < maximum && w.resolves && permit }

  /** What one turn of a fetch with nobody in between leaves of the semaphore. */
  function SemAfter(s: Sem, o: Origin, w: Turn, paid: bool): (t: Sem)
    requires Inv(s)
  {
    if w.aborted || !paid || !w.resolves then s
    else if ActiveAt(s, o) < s.limit then
      TakenAndGivenBack(s, o);
      Release(Acquire(s, o), |s.tickets|)
    else
      WaitedAndAborted(s, o);
      Abort(Acquire(s, o), |s.tickets|)
  }

  /** The scan after the turn. */
  function ScanAfter(s: Scan, id: FetchId, w: Turn, validate: Redirect): Scan
    requires Inv(s.sem) && id in s.fetches
  {
    var f := s.fetches[id];
    var o := OriginOf(f.url);
    var asks := Asks(w, s.used, s.maximum, ActiveAt(s.sem, o) < s.sem.limit);
    Scan(s.maximum,
         if !w.aborted && s.used < s.maximum then s.used + 1 else s.used,
         if asks then s.sent + 1 else s.sent,
         SemAfter(s.sem, o, w, s.used < s.maximum),
         s.fetches[id := if asks then Landed(f.(sent := f.sent + 1), w.reply, validate) else f.(pc := Over)])
  }

  lemma TurnRuns(start: Scan, s: Scan, id: FetchId, w: Turn, validate: Redirect)
    requires Leads(start, s, validate) && Inv(s.sem) && id in s.fetches && s.fetches[id].pc.Looping?
    ensures Leads(start, ScanAfter(s, id, w, validate), validate)
  {
    if w.aborted {
      LeadsOn(start, s, Stopped(id), validate);
    } else {
      LeadsOn(start, s, Pay(id), validate);
      var s1 := Do(s, Pay(id), validate);
      if s.used < s.maximum {
        if !w.resolves {
          LeadsOn(start, s1, LookupThrew(id), validate);
          assert Do(s1, LookupThrew(id), validate).fetches == ScanAfter(s, id, w, validate).fetches;
        } else {
          PaidTurnRuns(start, s1, id, w, validate);
          PaidIsAfter(s, s1, id, w, validate);
        }
      }
    }
  }

  lemma PaidIsAfter(s: Scan, s1: Scan, id: FetchId, w: Turn, validate: Redirect)
    requires Inv(s.sem) && id in s.fetches && s.fetches[id].pc.Looping? && !w.aborted && w.resolves && s.used < s.maximum
    requires s1 == Do(s, Pay(id), validate)
    ensures PaidAfter(s1, id, w, validate) == ScanAfter(s, id, w, validate)
  {
    var f := s.fetches[id];
    LandsAlike(f.(sent := f.sent + 1), s1.fetches[id].(sent := f.sent + 1), w.reply, validate);
    assert PaidAfter(s1, id, w, validate).fetches == ScanAfter(s, id, w, validate).fetches;
  }

  lemma PaidTurnRuns(start: Scan, s: Scan, id: FetchId, w: Turn, validate: Redirect)
    requires Leads(start, s, validate) && Inv(s.sem) && id in s.fetches && s.fetches[id].pc.Looking?
    requires !w.aborted && w.resolves
    ensures Leads(start, PaidAfter(s, id, w, validate), validate)
  {
    var o, s1 := OriginOf(s.fetches[id].url), Do(s, Ask(id), validate);
    LeadsOn(start, s, Ask(id), validate);
    if ActiveAt(s.sem, o) < s.sem.limit {
      PermittedTurnRuns(start, s, s1, id, w, validate);
    } else {
      WaitedAndAborted(s.sem, o);
      LeadsOn(start, s1, AbortWait(id), validate);
      assert Do(s1, AbortWait(id), validate).fetches == PaidAfter(s, id, w, validate).fetches;
    }
  }

  /** The scan after the rest of a turn that is paid for. */
  function PaidAfter(s: Scan, id: FetchId, w: Turn, validate: Redirect): Scan
    requires Inv(s.sem) && id in s.fetches && !w.aborted && w.resolves
  {
    var f, o := s.fetches[id], OriginOf(s.fetches[id].url);
    var permit := ActiveAt(s.sem, o) < s.sem.limit;
    Scan(s.maximum, s.used, if permit then s.sent + 1 else s.sent, SemAfter(s.sem, o, w, true),
         s.fetches[id := if permit then Landed(f.(sent := f.sent + 1), w.reply, validate) else f.(pc := Over)])
  }

  lemma PermittedTurnRuns(start: Scan, s: Scan, s1: Scan, id: FetchId, w: Turn, validate: Redirect)
    requires Inv(s.sem) && id in s.fetches && s.fetches[id].pc.Looking? && !w.aborted && w.resolves
    requires ActiveAt(s.sem, OriginOf(s.fetches[id].url)) < s.sem.limit
    requires s1 == Do(s, Ask(id), validate) && Leads(start, s1, validate)
    ensures Leads(start, PaidAfter(s, id, w, validate), validate)
  {
    var f := s.fetches[id];
    TakenAndGivenBack(s.sem, OriginOf(f.url));
    LeadsOn(start, s1, Send(id), validate);
    var s2 := Do(s1, Send(id), validate);
    LandsAlike(f.(sent := f.sent + 1), s2.fetches[id], w.reply, validate);
    LeadsOn(start, s2, Reply(id, w.reply), validate);
    var landed := Landed(f.(sent := f.sent + 1), w.reply, validate);
    assert s2.fetches[id := landed] == s.fetches[id := landed];
  }

  /** Where a turn leaves a fetch does not depend on where in the turn it was. */
  lemma LandsAlike(f: Fetching, g: Fetching, reply: Option<Artifact>, validate: Redirect)
    requires g == f.(pc := g.pc)
    ensures Landed(f, reply, validate) == Landed(g, reply, validate)
  {
  }

  /** One turn, up to the artifact it may bring: the permit is taken, and given back whether the
      request answers or throws. */
  method TakeTurn(budget: RequestBudget, w: Turn, url: Url, validate: Redirect, ghost s: Scan, ghost id: FetchId)
    returns (met: Met)
    requires budget.Stands(s) && id in s.fetches && s.fetches[id].url == url
    modifies budget`count, budget.semaphore
    ensures budget.Stands(ScanAfter(s, id, w, validate))
    ensures var stop := StopOf(w, s.used, s.maximum, ActiveAt(s.sem, OriginOf(url)) < s.sem.limit);
            met == if stop.Some? then Stop(stop.value) else Got(w.reply.value)
  {
    if w.aborted { return Stop(AbortError); }
    var ok := budget.Consume();
    if !ok { return Stop(BudgetExhausted); }
    if !w.resolves { return Stop(OtherError); }
    var ticket, immediately := budget.semaphore.AcquireAt(OriginOf(url));
    if !immediately {
      WaitedAndAborted(s.sem, OriginOf(url));
      budget.semaphore.AbortTicket(ticket);
      return Stop(AbortError);
    }
    TakenAndGivenBack(s.sem, OriginOf(url));
    budget.semaphore.ReleaseTicket(ticket);
    match w.reply {
      case None => return Stop(OtherError);
      case Some(artifact) => return Got(artifact);
    }
  }

  /** The end of a turn, branch by branch. */
  method EndTurn(schemeWasMissing: bool, url: Url, redirects: nat, usedFallback: bool, artifact: Artifact, validate: Redirect)
    returns (next: Next)
    ensures next == Decide(schemeWasMissing, url, redirects, usedFallback, artifact, validate)
  {
    if FallsBack(schemeWasMissing, url, redirects, usedFallback, artifact) {
      return Again(url.(protocol := "http:"), redirects, true);
    }
    if artifact.status < 300 || artifact.status >= 400 || !Truthy(artifact.location) {
      return Return(artifact);
    }
    if redirects >= REDIRECT_LIMIT {
      return Return(artifact.(errorCode := Some("redirect_limit_exceeded")));
    }
    var validated := validate(url, artifact.location.value);
    next := if validated.None? then Throw else Again(validated.value, redirects + 1, usedFallback);
  }

  /** How a turn ends: the fetch is over, or goes on. */
  datatype TurnEnd = Ends(outcome: Outcome) | GoesOn(url: Url, redirects: nat, usedFallback: bool)

  function TurnEndOf(w: Turn, f: Fetching, count: nat, maximum: nat, permit: bool, validate: Redirect): TurnEnd {
    match StopOf(w, count, maximum, permit)
    case Some(o) => Ends(o)
    case None =>
      match Decide(f.schemeWasMissing, f.url, f.redirects, f.usedFallback, w.reply.value, validate)
      case Return(a) => Ends(Returned(a))
      case Throw => Ends(OtherError)
      case Again(url, redirects, usedFallback) => GoesOn(url, redirects, usedFallback)
  }

  /** The same for `FetchFrom`, a turn at a time. */
  lemma FetchStep(world: nat -> Turn, permits: Permits, validate: Redirect, maximum: nat, turn: nat, f: Fetching, count: nat)
    requires f.redirects <= REDIRECT_LIMIT
    ensures var w, permit := world(turn), permits(turn, OriginOf(f.url));
            var r := FetchFrom(world, permits, validate, f.schemeWasMissing, maximum, turn, f.url, f.redirects, f.usedFallback, count);
            var url := if Asks(w, count, maximum, permit) then [f.url] else [];
            match TurnEndOf(w, f, count, maximum, permit, validate)
            case Ends(o) => r == Sent(o, url, if !w.aborted && count < maximum then count + 1 else count)
            case GoesOn(u, redirects, usedFallback) =>
              && redirects <= REDIRECT_LIMIT
              && url == [f.url]
              && var rest := FetchFrom(world, permits, validate, f.schemeWasMissing, maximum, turn + 1, u, redirects, usedFallback, count + 1);
              r == rest.(urls := [f.url] + rest.urls)
  {
  }

  /** And for the scan. */
  lemma ScanStep(s: Scan, id: FetchId, w: Turn, validate: Redirect)
    requires Inv(s.sem) && id in s.fetches
    ensures var t, f := ScanAfter(s, id, w, validate), s.fetches[id];
            var permit := ActiveAt(s.sem, OriginOf(f.url)) < s.sem.limit;
            var sent := if Asks(w, s.used, s.maximum, permit) then 1 else 0;
            && t.sent == s.sent + sent && t.maximum == s.maximum
            && t.fetches == s.fetches[id := t.fetches[id]]
            && match TurnEndOf(w, f, s.used, s.maximum, permit, validate)
               case Ends(_) =>
                 && t.fetches[id].pc.Over? && t.fetches[id].sent == f.sent + sent
                 && t.used == (if !w.aborted && s.used < s.maximum then s.used + 1 else s.used)
               case GoesOn(u, redirects, usedFallback) =>
                 t.fetches[id] == Fetching(f.schemeWasMissing, u, redirects, usedFallback, f.sent + 1, Looping) && t.used == s.used + 1
  {
  }

  method OneTurn(budget: RequestBudget, w: Turn, schemeWasMissing: bool, url: Url, redirects: nat, usedFallback: bool, validate: Redirect,
                 ghost s: Scan, ghost id: FetchId)
    returns (end: TurnEnd)
    requires budget.Stands(s) && id in s.fetches
    requires s.fetches[id] == Fetching(schemeWasMissing, url, redirects, usedFallback, s.fetches[id].sent, Looping)
    requires redirects <= REDIRECT_LIMIT
    modifies budget`count, budget.semaphore
    ensures budget.Stands(ScanAfter(s, id, w, validate))
    ensures end == TurnEndOf(w, s.fetches[id], s.used, s.maximum, ActiveAt(s.sem, OriginOf(url)) < s.sem.limit, validate)
    ensures end.GoesOn? ==> end.redirects <= REDIRECT_LIMIT && 0 <= Budgeted(end.redirects, end.usedFallback) < Budgeted(redirects, usedFallback)
  {
    var met := TakeTurn(budget, w, url, validate, s, id);
    if met.Stop? {
      return Ends(met.outcome);
    }
    DecideMeans(schemeWasMissing, url, redirects, usedFallback, met.artifact, validate);
    var next := EndTurn(schemeWasMissing, url, redirects, usedFallback, met.artifact, validate);
    match next {
      case Return(answer) => return Ends(Returned(answer));
      case Throw => return Ends(OtherError);
      case Again(to, redirects', usedFallback') => return GoesOn(to, redirects', usedFallback');
    }
  }

  lemma GatesAfter(a: Sem, s: Scan, id: FetchId, w: Turn, validate: Redirect)
    requires Inv(s.sem) && SameGates(a, s.sem) && id in s.fetches
    ensures SameGates(a, ScanAfter(s, id, w, validate).sem) && Inv(ScanAfter(s, id, w, validate).sem)
  {
    var o, k := OriginOf(s.fetches[id].url), |s.sem.tickets|;
    AcquireKeepsInv(s.sem, o);
    if !w.aborted && s.used < s.maximum && w.resolves {
      if ActiveAt(s.sem, o) < s.sem.limit {
        TakenAndGivenBack(s.sem, o);
        ReleaseKeepsInv(Acquire(s.sem, o), k);
      } else {
        WaitedAndAborted(s.sem, o);
        AbortKeepsInv(Acquire(s.sem, o), k);
      }
    }
    GatesStay(a, s.sem, ScanAfter(s, id, w, validate).sem);
  }

  lemma GatesStay(a: Sem, b: Sem, c: Sem)
    requires SameGates(a, b) && SameGates(b, c)
    ensures SameGates(a, c)
  {
    forall k: nat | |a.tickets| <= k < |c.tickets| ensures !Live(c.tickets[k]) {
      if k < |b.tickets| { assert c.tickets[k] == b.tickets[k]; }
    }
  }

  /** A fetch so many turns on: the scan it is in, what it has sent, and how it ended if it has. */
  datatype Fetched = Fetched(scan: Scan, urls: seq<Url>, ended: Option<Outcome>)

  /** One more turn. */
  ghost function Onward(g: Fetched, id: FetchId, w: Turn, validate: Redirect): Fetched
    requires Inv(g.scan.sem) && id in g.scan.fetches
  {
    var s, f := g.scan, g.scan.fetches[id];
    var permit := ActiveAt(s.sem, OriginOf(f.url)) < s.sem.limit;
    Fetched(ScanAfter(s, id, w, validate),
            g.urls + if Asks(w, s.used, s.maximum, permit) then [f.url] else [],
            match TurnEndOf(w, f, s.used, s.maximum, permit, validate) case Ends(o) => Some(o) case GoesOn(_, _, _) => None)
  }

  ghost function AfterTurns(s: Scan, id: FetchId, world: nat -> Turn, validate: Redirect, n: nat): (g: Fetched)
    requires Inv(s.sem) && id in s.fetches
    ensures Inv(g.scan.sem) && SameGates(s.sem, g.scan.sem) && id in g.scan.fetches
  {
    if n == 0 then Fetched(s, [], None)
    else
      var g := AfterTurns(s, id, world, validate, n - 1);
      GatesAfter(s.sem, g.scan, id, world(n - 1), validate);
      ScanStep(g.scan, id, world(n - 1), validate);
      if g.ended.Some? then g else Onward(g, id, world(n - 1), validate)
  }

  /** What one more turn comes to, for the loop. */
  ghost predicate Moves(t: Scan, u: Scan, id: FetchId, w: Turn, validate: Redirect, ended: Option<Outcome>) {
    && Inv(t.sem) && id in t.fetches && u == ScanAfter(t, id, w, validate)
    && var f := t.fetches[id];
       match TurnEndOf(w, f, t.used, t.maximum, ActiveAt(t.sem, OriginOf(f.url)) < t.sem.limit, validate)
       case Ends(o) => ended == Some(o)
       case GoesOn(to, redirects, usedFallback) =>
         ended.None? && u.fetches[id] == Fetching(f.schemeWasMissing, to, redirects, usedFallback, f.sent + 1, Looping)
  }

  lemma OneMore(s: Scan, id: FetchId, world: nat -> Turn, validate: Redirect, n: nat)
    requires Inv(s.sem) && id in s.fetches && AfterTurns(s, id, world, validate, n).ended.None?
    ensures var g, h := AfterTurns(s, id, world, validate, n), AfterTurns(s, id, world, validate, n + 1);
            Moves(g.scan, h.scan, id, world(n), validate, h.ended)
  {
    ScanStep(AfterTurns(s, id, world, validate, n).scan, id, world(n), validate);
  }

  /** The loop, turn after turn, on the budget and the semaphore of the scan it is in. */
  method Fetch(budget: RequestBudget, world: nat -> Turn, validate: Redirect, schemeWasMissing: bool, input: Url,
               ghost s: Scan, ghost id: FetchId)
    returns (outcome: Outcome, ghost turns: nat)
    requires budget.Stands(s) && id in s.fetches && s.fetches[id] == Fetching(schemeWasMissing, input, 0, false, 0, Looping)
    modifies budget`count, budget.semaphore
    ensures AfterTurns(s, id, world, validate, turns).ended == Some(outcome)
    ensures budget.Stands(AfterTurns(s, id, world, validate, turns).scan)
  {
    var url, redirects, usedFallback := input, 0, false;
    ghost var t := s;
    turns := 0;
    var turn := 0;
    while true
      invariant redirects <= REDIRECT_LIMIT && turns == turn
      invariant AfterTurns(s, id, world, validate, turns).ended.None? && AfterTurns(s, id, world, validate, turns).scan == t
      invariant budget.Stands(t) && id in t.fetches
      invariant t.fetches[id] == Fetching(schemeWasMissing, url, redirects, usedFallback, t.fetches[id].sent, Looping)
      decreases Budgeted(redirects, usedFallback)
    {
      OneMore(s, id, world, validate, turns);
      ghost var h := AfterTurns(s, id, world, validate, turns + 1);
      var end := OneTurn(budget, world(turn), schemeWasMissing, url, redirects, usedFallback, validate, t, id);
      assert end == if h.ended.Some? then Ends(h.ended.value)
                    else GoesOn(h.scan.fetches[id].url, h.scan.fetches[id].redirects, h.scan.fetches[id].usedFallback);
      turn, turns, t := turn + 1, turns + 1, h.scan;
      match end {
        case Ends(o) => return o, turns;
        case GoesOn(to, redirects', usedFallback') => url, redirects, usedFallback := to, redirects', usedFallback';
      }
    }
  }

  /** The fetch is at the top of its loop, or over; and no other fetch is touched. */
  predicate Alone(s: Scan, g: Fetched, id: FetchId) {
    && id in s.fetches && id in g.scan.fetches && g.scan.fetches == s.fetches[id := g.scan.fetches[id]]
    && if g.ended.Some? then g.scan.fetches[id].pc.Over? else g.scan.fetches[id].pc.Looping?
  }

  lemma OnwardRuns(s: Scan, g: Fetched, id: FetchId, w: Turn, validate: Redirect)
    requires Leads(s, g.scan, validate) && Inv(g.scan.sem) && Alone(s, g, id) && g.ended.None?
    ensures Leads(s, Onward(g, id, w, validate).scan, validate) && Alone(s, Onward(g, id, w, validate), id)
  {
    ScanStep(g.scan, id, w, validate);
    TurnRuns(s, g.scan, id, w, validate);
  }

  /** Those turns are a run of the scan that touches no other fetch. Once it is over, however it
      ended, it holds no permit and waits for none, and the semaphore lets in what it let in
      before. */
  lemma {:induction false} FetchIsAScanRun(s: Scan, id: FetchId, world: nat -> Turn, validate: Redirect, n: nat)
    requires Inv(s.sem) && id in s.fetches && s.fetches[id].pc.Looping?
    ensures var g := AfterTurns(s, id, world, validate, n);
            Leads(s, g.scan, validate) && Alone(s, g, id) && SameGates(s.sem, g.scan.sem)
  {
    if n == 0 {
      LeadsNowhere(s, validate);
    } else {
      FetchIsAScanRun(s, id, world, validate, n - 1);
      var g := AfterTurns(s, id, world, validate, n - 1);
      if g.ended.None? { OnwardRuns(s, g, id, world(n - 1), validate); }
    }
  }

  /** What is left of a fetch at the top of its loop. */
  ghost function RestOf(world: nat -> Turn, permits: Permits, validate: Redirect, turn: nat, s: Scan, f: Fetching): Sent
    requires f.redirects <= REDIRECT_LIMIT
  {
    FetchFrom(world, permits, validate, f.schemeWasMissing, s.maximum, turn, f.url, f.redirects, f.usedFallback, s.used)
  }

  /** And in them the fetch sends, pays for and comes to exactly what `FetchFrom` says. */
  lemma {:induction false} FetchIsFetchFrom(s: Scan, id: FetchId, world: nat -> Turn, validate: Redirect, n: nat)
    requires Inv(s.sem) && id in s.fetches && s.fetches[id].pc.Looping? && s.fetches[id].redirects <= REDIRECT_LIMIT
    ensures var g, f, whole := AfterTurns(s, id, world, validate, n), s.fetches[id], RestOf(world, AtOnce(s.sem), validate, 0, s, s.fetches[id]);
            && g.scan.sent == s.sent + |g.urls| && g.scan.fetches[id].sent == f.sent + |g.urls| && g.scan.maximum == s.maximum
            && (g.ended.Some? ==> whole == Sent(g.ended.value, g.urls, g.scan.used))
            && (g.ended.None? ==> g.scan.fetches[id].redirects <= REDIRECT_LIMIT && g.scan.fetches[id].schemeWasMissing == f.schemeWasMissing)
            && (g.ended.None? ==>
                  var rest := RestOf(world, AtOnce(s.sem), validate, n, g.scan, g.scan.fetches[id]);
                  whole == rest.(urls := g.urls + rest.urls))
  {
    if n == 0 {
      var rest := RestOf(world, AtOnce(s.sem), validate, 0, s, s.fetches[id]);
      assert [] + rest.urls == rest.urls;
    } else {
      FetchIsFetchFrom(s, id, world, validate, n - 1);
      if AfterTurns(s, id, world, validate, n - 1).ended.None? {
        assert AfterTurns(s, id, world, validate, n) == Onward(AfterTurns(s, id, world, validate, n - 1), id, world(n - 1), validate);
        OnwardIsFetchFrom(s, AfterTurns(s, id, world, validate, n - 1), id, world, validate, n - 1,
                          RestOf(world, AtOnce(s.sem), validate, 0, s, s.fetches[id]));
      }
    }
  }

  lemma OnwardIsFetchFrom(s: Scan, g: Fetched, id: FetchId, world: nat -> Turn, validate: Redirect, n: nat, whole: Sent)
    requires Inv(g.scan.sem) && SameGates(s.sem, g.scan.sem) && id in g.scan.fetches && g.scan.fetches[id].redirects <= REDIRECT_LIMIT
    requires var rest := RestOf(world, AtOnce(s.sem), validate, n, g.scan, g.scan.fetches[id]);
             whole == rest.(urls := g.urls + rest.urls)
    ensures var h := Onward(g, id, world(n), validate);
            && id in h.scan.fetches
            && h.scan.sent - g.scan.sent == h.scan.fetches[id].sent - g.scan.fetches[id].sent == |h.urls| - |g.urls|
            && h.scan.maximum == g.scan.maximum
            && (h.ended.Some? ==> whole == Sent(h.ended.value, h.urls, h.scan.used))
            && (h.ended.None? ==>
                  && h.scan.fetches[id].redirects <= REDIRECT_LIMIT
                  && h.scan.fetches[id].schemeWasMissing == g.scan.fetches[id].schemeWasMissing
                  && var rest := RestOf(world, AtOnce(s.sem), validate, n + 1, h.scan, h.scan.fetches[id]);
                  whole == rest.(urls := h.urls + rest.urls))
  {
    var f, h := g.scan.fetches[id], Onward(g, id, world(n), validate);
    ScanStep(g.scan, id, world(n), validate);
    FetchStep(world, AtOnce(s.sem), validate, g.scan.maximum, n, f, g.scan.used);
    assert AtOnce(s.sem)(n, OriginOf(f.url)) == (ActiveAt(g.scan.sem, OriginOf(f.url)) < g.scan.sem.limit);
    if h.ended.None? {
      AfterUrls(RestOf(world, AtOnce(s.sem), validate, n + 1, h.scan, h.scan.fetches[id]),
                RestOf(world, AtOnce(s.sem), validate, n, g.scan, f), g.urls, f.url);
    }
  }

  lemma AfterUrls(rest: Sent, r: Sent, before: seq<Url>, url: Url)
    requires r == rest.(urls := [url] + rest.urls)
    ensures r.(urls := before + r.urls) == rest.(urls := before + [url] + rest.urls)
  {
  }
}

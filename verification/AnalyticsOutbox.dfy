/** The analytics outbox: rows leased to workers, retried on a schedule, and closed for good.
    Instants are milliseconds on one clock that never goes back. */
module AnalyticsOutbox {
  import opened Basics

  type Instant = int

  const LEASE_MS := 2 * 60_000
  const PARTNER_RETRY_WINDOW_MS := 24 * 60 * 60 * 1_000
  const PARTNER_RETRY_DELAYS_MS: seq<int> := [60_000, 5 * 60_000, 30 * 60_000, 2 * 60 * 60_000, 6 * 60 * 60_000]
  const MOST_ATTEMPTS: nat := 17

  datatype Status = Pending | Processing | Delivered | DeadLetter

  datatype Destination = Posthog | Meta | PartnerTracker

  datatype Row = Row(destination: Destination, occurredAt: Instant, status: Status, attempts: nat, next: Instant)

  // ---------------------------------------------------------------------------------------
  // What happens to one row.

  function PartnerDelay(attempts: nat): int
    requires attempts > 0
  {
    PARTNER_RETRY_DELAYS_MS[if attempts - 1 < |PARTNER_RETRY_DELAYS_MS| - 1 then attempts - 1 else |PARTNER_RETRY_DELAYS_MS| - 1]
  }

  function PowerOfTwo(n: nat): nat { if n == 0 then 1 else 2 * PowerOfTwo(n - 1) }

  function Least(a: int, b: int): int { if a <= b then a else b }

  function RetryDelayMs(attempts: nat): int {
    Least(24 * 60 * 60 * 1_000, 1_000 * PowerOfTwo(if attempts > 1 then attempts - 1 else 0))
  }

  predicate ShouldDeadLetter(attempts: nat) { attempts >= MOST_ATTEMPTS }

  predicate Due(r: Row, now: Instant) { (r.status.Pending? || r.status.Processing?) && r.next <= now }

  function Claimed(r: Row, now: Instant): Row {
    r.(status := Processing, attempts := r.attempts + 1, next := now + LEASE_MS)
  }

  predicate Expired(partner: bool, occurredAt: Instant, now: Instant) { partner && now - occurredAt >= PARTNER_RETRY_WINDOW_MS }

  datatype Result = Ok | Failed(retryable: bool)

  datatype Action = MarkDelivered | MarkDead | RetryAt(at: Instant)

  function RetryTime(partner: bool, occurredAt: Instant, attempts: nat, now: Instant): Instant
    requires attempts > 0
  {
    if partner then Least(now + PartnerDelay(attempts), occurredAt + PARTNER_RETRY_WINDOW_MS) else now + RetryDelayMs(attempts)
  }

  /** What a cycle that read `now` before delivering does with the result. */
  function ActionFor(partner: bool, occurredAt: Instant, attempts: nat, now: Instant, result: Result): Action
    requires attempts > 0
  {
    match result
    case Ok => MarkDelivered
    case Failed(retryable) =>
      if !retryable || ShouldDeadLetter(attempts) then MarkDead else RetryAt(RetryTime(partner, occurredAt, attempts, now))
  }

  /** Every report is conditional on the row still being in process. */
  function Reported(r: Row, action: Action): Row {
    if !r.status.Processing? then r
    else match action
      case MarkDelivered => r.(status := Delivered)
      case MarkDead => r.(status := DeadLetter)
      case RetryAt(at) => r.(status := Pending, next := at)
  }

  // ---------------------------------------------------------------------------------------
  // The repository.

  type RowId = nat

  /** `order by next_attempt_at, id`. */
  predicate Before(rows: map<RowId, Row>, a: RowId, b: RowId)
    requires a in rows && b in rows
  {
    rows[a].next < rows[b].next || (rows[a].next == rows[b].next && a < b)
  }

  /** What a claim may take: due, one of this worker's destinations, and in nobody's hands. */
  predicate Claimable(rows: map<RowId, Row>, destinations: set<Destination>, now: Instant, locked: set<RowId>, id: RowId) {
    id in rows && Due(rows[id], now) && rows[id].destination in destinations && id !in locked
  }

  /** What it takes: the earliest of them, each once, and all of them where there are not more
      than it may take. */
  ghost predicate Takes(rows: map<RowId, Row>, destinations: set<Destination>, limit: nat, now: Instant, locked: set<RowId>, claimed: seq<RowId>) {
    && |claimed| <= limit && (forall i, j :: 0 <= i < j < |claimed| ==> claimed[i] != claimed[j])
    && (forall c :: c in claimed ==> Claimable(rows, destinations, now, locked, c))
    && (forall c, d :: c in claimed && c in rows && Claimable(rows, destinations, now, locked, d) && d !in claimed ==> Before(rows, c, d))
    && (|claimed| < limit ==> forall d :: Claimable(rows, destinations, now, locked, d) ==> d in claimed)
  }

  class Repository {
    const destinations: set<Destination>
    var rows: map<RowId, Row>

    constructor (destinations: set<Destination>, rows: map<RowId, Row>)
      ensures this.destinations == destinations && this.rows == rows
    {
      this.destinations, this.rows := destinations, rows;
    }

    method EarliestOf(due: set<RowId>) returns (first: RowId)
      requires due != {} && due <= rows.Keys
      ensures first in due && forall b :: b in due && b != first ==> Before(rows, first, b)
    {
      first :| first in due;
      var rest := due - {first};
      while rest != {}
        invariant first in due && first !in rest && rest <= due
        invariant forall b :: b in due && b !in rest && b != first ==> Before(rows, first, b)
        decreases rest
      {
        var b :| b in rest;
        if Before(rows, b, first) { first := b; }
        rest := rest - {b};
      }
    }

    /** Leases what it takes, and touches no other row. `locked` are the rows some other
        transaction holds, which `skip locked` passes over. */
    method Claim(limit: nat, now: Instant, locked: set<RowId>) returns (claimed: seq<RowId>)
      modifies this
      ensures Takes(old(rows), destinations, limit, now, locked, claimed)
      ensures rows == map d | d in old(rows) :: if d in claimed then Claimed(old(rows)[d], now) else old(rows)[d]
    {
      claimed := [];
      if destinations == {} { return; }
      var due := set d | d in rows && Claimable(rows, destinations, now, locked, d);
      while |claimed| < limit && due != {}
        invariant |claimed| <= limit && rows == old(rows)
        invariant forall i, j :: 0 <= i < j < |claimed| ==> claimed[i] != claimed[j]
        invariant forall c :: c in claimed ==> Claimable(rows, destinations, now, locked, c) && c !in due
        invariant forall d :: Claimable(rows, destinations, now, locked, d) ==> d in claimed || d in due
        invariant forall d :: d in due ==> Claimable(rows, destinations, now, locked, d)
        invariant forall c, d :: c in claimed && d in due ==> Before(rows, c, d)
        decreases due
      {
        var first := EarliestOf(due);
        claimed, due := claimed + [first], due - {first};
      }
      rows := map d | d in rows :: if d in claimed then Claimed(rows[d], now) else rows[d];
    }

    method Report(id: RowId, action: Action)
      modifies this
      ensures rows == if id in old(rows) then old(rows)[id := Reported(old(rows)[id], action)] else old(rows)
    {
      if id in rows && rows[id].status.Processing? {
        match action {
          case MarkDelivered => rows := rows[id := rows[id].(status := Delivered)];
          case MarkDead => rows := rows[id := rows[id].(status := DeadLetter)];
          case RetryAt(at) => rows := rows[id := rows[id].(status := Pending, next := at)];
        }
      }
    }

    /** One row of `runOutboxCycle`, as it was claimed: `delivers` says whether it was handed on. */
    method RunRow(id: RowId, leased: Row, now: Instant, result: Result) returns (delivers: bool)
      requires leased.attempts > 0
      modifies this
      ensures delivers == !Expired(leased.destination.PartnerTracker?, leased.occurredAt, now)
      ensures var action := if delivers then ActionFor(leased.destination.PartnerTracker?, leased.occurredAt, leased.attempts, now, result) else MarkDead;
              rows == if id in old(rows) then old(rows)[id := Reported(old(rows)[id], action)] else old(rows)
    {
      if Expired(leased.destination.PartnerTracker?, leased.occurredAt, now) {
        Report(id, MarkDead);
        return false;
      }
      delivers := true;
      match result {
        case Ok => Report(id, MarkDelivered);
        case Failed(retryable) =>
          if !retryable || ShouldDeadLetter(leased.attempts) {
            Report(id, MarkDead);
          } else {
            Report(id, RetryAt(RetryTime(leased.destination.PartnerTracker?, leased.occurredAt, leased.attempts, now)));
          }
      }
    }
  }

  // ---------------------------------------------------------------------------------------
  // One row among any number of workers, some of them stale.

  type ClaimId = nat

  datatype Phase =
    | Leased                                          // claimed, the clock not yet read
    | Delivering(decidedAt: Instant, sent: bool)      // handed to the deliverer
    | Reporting(action: Action)
    | Done

  datatype Lease = Lease(at: Instant, attempts: nat, phase: Phase)

  datatype Sent = Sent(who: ClaimId, at: Instant)

  /** `calls` are the instants the deliverer was called at, `sends` the requests that left. */
  datatype State = State(clock: Instant, row: Row, leases: map<ClaimId, Lease>, calls: seq<Instant>, sends: seq<Sent>)

  datatype Event =
    | Tick(to: Instant)
    | Take(id: ClaimId)
    | Decide(id: ClaimId)
    | Send(id: ClaimId)
    | Answer(id: ClaimId, result: Result)
    | Record(id: ClaimId)

  predicate Enabled(s: State, e: Event) {
    match e
    case Tick(to) => s.clock <= to
    case Take(c) => c !in s.leases && Due(s.row, s.clock)
    case Decide(c) => c in s.leases && s.leases[c].phase.Leased?
    case Send(c) => c in s.leases && s.leases[c].phase.Delivering? && !s.leases[c].phase.sent
    case Answer(c, _) => c in s.leases && s.leases[c].phase.Delivering? && s.leases[c].attempts > 0
    case Record(c) => c in s.leases && s.leases[c].phase.Reporting?
  }

  function To(s: State, c: ClaimId, phase: Phase): State
    requires c in s.leases
  {
    s.(leases := s.leases[c := s.leases[c].(phase := phase)])
  }

  function Apply(s: State, e: Event): State
    requires Enabled(s, e)
  {
    match e
    case Tick(to) => s.(clock := to)
    case Take(c) => s.(row := Claimed(s.row, s.clock), leases := s.leases[c := Lease(s.clock, s.row.attempts + 1, Leased)])
    case Decide(c) =>
      if Expired(s.row.destination.PartnerTracker?, s.row.occurredAt, s.clock) then To(s, c, Reporting(MarkDead))
      else To(s, c, Delivering(s.clock, false)).(calls := s.calls + [s.clock])
    case Send(c) => To(s, c, s.leases[c].phase.(sent := true)).(sends := s.sends + [Sent(c, s.clock)])
    case Answer(c, result) =>
      To(s, c, Reporting(ActionFor(s.row.destination.PartnerTracker?, s.row.occurredAt, s.leases[c].attempts, s.leases[c].phase.decidedAt, result)))
    case Record(c) => To(s, c, Done).(row := Reported(s.row, s.leases[c].phase.action))
  }

  ghost predicate Run(s: State, events: seq<Event>, t: State)
    decreases |events|
  {
    if events == [] then s == t
    else Enabled(s, events[0]) && Run(Apply(s, events[0]), events[1..], t)
  }

  /** A row as it is inserted, after the event it carries. */
  ghost predicate Init(s: State) {
    && s.row.status.Pending? && s.row.attempts == 0 && s.row.occurredAt <= s.clock
    && s.leases == map[] && s.calls == [] && s.sends == []
  }

  predicate Closed(r: Row) { r.status.Delivered? || r.status.DeadLetter? }

  /** Delivered and dead letter are for good, whoever reports whatever, however late. */
  lemma {:induction false} ClosedForGood(s: State, events: seq<Event>, t: State)
    requires Closed(s.row) && Run(s, events, t)
    ensures t.row == s.row
    decreases |events|
  {
    if events != [] { ClosedForGood(Apply(s, events[0]), events[1..], t); }
  }

  // ---------------------------------------------------------------------------------------
  // What holds with no trust in the workers at all.

  predicate InWindow(r: Row, at: Instant) { r.destination.PartnerTracker? ==> at < r.occurredAt + PARTNER_RETRY_WINDOW_MS }

  predicate LeaseWell(s: State, l: Lease) {
    && l.attempts > 0
    && l.at <= s.clock
    && (l.phase.Delivering? ==> InWindow(s.row, l.phase.decidedAt) && l.phase.decidedAt <= s.clock)
  }

  ghost predicate Sound(s: State) {
    && (forall c :: c in s.leases ==> LeaseWell(s, s.leases[c]))
    && (forall n :: 0 <= n < |s.calls| ==> InWindow(s.row, s.calls[n]))
  }

  lemma {:induction false} RunIsSound(s: State, events: seq<Event>, t: State)
    requires Sound(s) && Run(s, events, t)
    ensures Sound(t) && t.row.destination == s.row.destination && t.row.occurredAt == s.row.occurredAt
    decreases |events|
  {
    if events != [] { RunIsSound(Apply(s, events[0]), events[1..], t); }
  }

  lemma {:induction false} DelaysArePositive(attempts: nat)
    ensures RetryDelayMs(attempts) > 0
    ensures attempts > 0 ==> PartnerDelay(attempts) > 0
  {
    PowersArePositive(if attempts > 1 then attempts - 1 else 0);
  }

  lemma {:induction false} PowersArePositive(n: nat)
    ensures PowerOfTwo(n) > 0
  {
    if n > 0 { PowersArePositive(n - 1); }
  }

  /** Leases lost or not: no partner delivery is ever begun at or after twenty-four hours, and
      every retry a worker is about to ask for lies after the clock it read and, for a partner,
      no later than the end of those hours. */
  lemma PartnerWindowIsKept(s: State, events: seq<Event>, t: State)
    requires Init(s) && Run(s, events, t)
    ensures forall n :: 0 <= n < |t.calls| ==> InWindow(t.row, t.calls[n])
    ensures forall c, result :: Enabled(t, Answer(c, result)) ==>
              var action := Apply(t, Answer(c, result)).leases[c].phase.action;
              action.RetryAt? ==>
                && t.leases[c].phase.decidedAt < action.at
                && (t.row.destination.PartnerTracker? ==> action.at <= t.row.occurredAt + PARTNER_RETRY_WINDOW_MS)
  {
    RunIsSound(s, events, t);
    forall c, result | Enabled(t, Answer(c, result))
      ensures var action := Apply(t, Answer(c, result)).leases[c].phase.action;
              action.RetryAt? ==>
                && t.leases[c].phase.decidedAt < action.at
                && (t.row.destination.PartnerTracker? ==> action.at <= t.row.occurredAt + PARTNER_RETRY_WINDOW_MS)
    {
      DelaysArePositive(t.leases[c].attempts);
      assert LeaseWell(t, t.leases[c]);
    }
  }

  // ---------------------------------------------------------------------------------------
  // What holds where every claim is finished inside its lease.

  /** Whoever holds the row now is still inside the lease it took. */
  ghost predicate Prompt(s: State) {
    forall c :: c in s.leases && !s.leases[c].phase.Done? ==> s.clock < s.leases[c].at + LEASE_MS
  }

  ghost predicate PromptRun(s: State, events: seq<Event>, t: State)
    requires Run(s, events, t)
    decreases |events|
  {
    Prompt(s) && (events != [] ==> PromptRun(Apply(s, events[0]), events[1..], t))
  }

  /** The soonest a call can come after the event: the delays behind the calls before it. */
  function Elapsed(call: nat): int { if call <= 1 then 0 else Elapsed(call - 1) + PartnerDelay(call - 1) }

  /** When the row may next be taken, given the calls so far. */
  function NextTime(r: Row, calls: seq<Instant>): Instant {
    if calls == [] then r.occurredAt else RetryTime(r.destination.PartnerTracker?, r.occurredAt, |calls|, calls[|calls| - 1])
  }

  /** The one lease that is not over, against the row and the calls. */
  predicate HolderRight(s: State, l: Lease) {
    && s.row.status.Processing? && s.row.attempts == l.attempts && s.row.next == l.at + LEASE_MS
    && match l.phase
       case Leased => |s.calls| == l.attempts - 1 && NextTime(s.row, s.calls) <= l.at
       case Delivering(decidedAt, sent) =>
         && |s.calls| == l.attempts && s.calls != [] && s.calls[|s.calls| - 1] == decidedAt && l.at <= decidedAt
         && (!sent ==> |s.sends| < |s.calls|)
       case Reporting(action) =>
         && |s.calls| <= l.attempts
         && (action.RetryAt? ==> |s.calls| == l.attempts && action.at == NextTime(s.row, s.calls) && !ShouldDeadLetter(l.attempts))
       case Done => true
  }

  ghost predicate Holds(s: State, c: ClaimId) { c in s.leases && !s.leases[c].phase.Done? }

  ghost predicate OneHolder(s: State) {
    && (forall c, d :: Holds(s, c) && Holds(s, d) ==> c == d)
    && (forall c :: Holds(s, c) ==> HolderRight(s, s.leases[c]))
    && (s.row.status.Processing? ==> exists c :: Holds(s, c))
  }

  predicate PendingRight(s: State) {
    s.row.status.Pending? ==>
      && |s.calls| == s.row.attempts && s.row.attempts < MOST_ATTEMPTS
      && (s.calls != [] ==> s.row.next == NextTime(s.row, s.calls))
  }

  function WindowEnd(r: Row): Instant { r.occurredAt + PARTNER_RETRY_WINDOW_MS }

  /** Every request left inside the lease of the claim that sent it, and a partner's under a
      lease taken inside the window. */
  predicate SendsRight(s: State) {
    && (forall n :: 0 <= n < |s.sends| ==> s.sends[n].who in s.leases && s.sends[n].at < s.leases[s.sends[n].who].at + LEASE_MS)
    && (forall n :: 0 <= n < |s.sends| && s.row.destination.PartnerTracker? ==> s.leases[s.sends[n].who].at < WindowEnd(s.row))
  }

  predicate CallsRight(s: State) {
    && s.row.occurredAt <= s.clock
    && |s.sends| <= |s.calls| <= s.row.attempts <= MOST_ATTEMPTS
    && (forall n :: 0 <= n < |s.calls| && s.row.destination.PartnerTracker? ==> s.row.occurredAt + Elapsed(n + 1) <= s.calls[n])
  }

  ghost predicate Timely(s: State) { Sound(s) && OneHolder(s) && PendingRight(s) && CallsRight(s) && SendsRight(s) }

  lemma TakeIsTimely(s: State, e: Event)
    requires Timely(s) && Prompt(s) && Enabled(s, e) && e.Take?
    ensures Timely(Apply(s, e))
  {
    assert forall c :: Holds(s, c) ==> s.row.next == s.leases[c].at + LEASE_MS;
    assert forall c :: !Holds(s, c);
    var t := Apply(s, e);
    assert Holds(t, e.id);
    assert HolderRight(t, t.leases[e.id]);
  }

  lemma DecideIsTimely(s: State, e: Event)
    requires Timely(s) && Enabled(s, e) && e.Decide?
    ensures Timely(Apply(s, e))
  {
    assert Holds(s, e.id) && HolderRight(s, s.leases[e.id]);
    var t := Apply(s, e);
    assert forall c :: Holds(t, c) <==> Holds(s, c);
    if !Expired(s.row.destination.PartnerTracker?, s.row.occurredAt, s.clock) && s.row.destination.PartnerTracker? {
      assert LeaseWell(s, s.leases[e.id]);
      assert s.calls != [] ==> s.calls[|s.calls| - 1] + PartnerDelay(|s.calls|) <= s.clock;
      assert Elapsed(|s.calls| + 1) == if s.calls == [] then 0 else Elapsed(|s.calls|) + PartnerDelay(|s.calls|);
    }
  }

  lemma SendIsTimely(s: State, e: Event)
    requires Timely(s) && Prompt(s) && Enabled(s, e) && e.Send?
    ensures Timely(Apply(s, e))
  {
    assert Holds(s, e.id) && HolderRight(s, s.leases[e.id]) && LeaseWell(s, s.leases[e.id]);
    assert s.clock < s.leases[e.id].at + LEASE_MS;
    var t := Apply(s, e);
    assert forall c :: Holds(t, c) <==> Holds(s, c);
  }

  lemma AnswerIsTimely(s: State, e: Event)
    requires Timely(s) && Enabled(s, e) && e.Answer?
    ensures Timely(Apply(s, e))
  {
    assert Holds(s, e.id) && HolderRight(s, s.leases[e.id]);
    var t := Apply(s, e);
    assert forall c :: Holds(t, c) <==> Holds(s, c);
    assert HolderRight(t, t.leases[e.id]);
  }

  lemma RecordIsTimely(s: State, e: Event)
    requires Timely(s) && Enabled(s, e) && e.Record?
    ensures Timely(Apply(s, e))
  {
    assert Holds(s, e.id) && HolderRight(s, s.leases[e.id]);
    var t, i := Apply(s, e), e.id;
    assert forall c :: c != i ==> !Holds(s, c);
    forall c ensures !Holds(t, c) { assert c != i ==> !Holds(s, c); }
  }

  lemma StepIsTimely(s: State, e: Event)
    requires Timely(s) && Prompt(s) && Enabled(s, e)
    ensures Timely(Apply(s, e))
  {
    match e
    case Take(_) => TakeIsTimely(s, e);
    case Decide(_) => DecideIsTimely(s, e);
    case Send(_) => SendIsTimely(s, e);
    case Answer(_, _) => AnswerIsTimely(s, e);
    case Record(_) => RecordIsTimely(s, e);
    case Tick(_) => assert forall c :: Holds(Apply(s, e), c) <==> Holds(s, c);
  }

  lemma {:induction false} RunIsTimely(s: State, events: seq<Event>, t: State)
    requires Timely(s) && Run(s, events, t) && PromptRun(s, events, t)
    ensures Timely(t) && t.row.destination == s.row.destination && t.row.occurredAt == s.row.occurredAt
    decreases |events|
  {
    if events != [] {
      StepIsTimely(s, events[0]);
      RunIsTimely(Apply(s, events[0]), events[1..], t);
    }
  }

  lemma NineWouldBeTooLate()
    ensures Elapsed(8) < PARTNER_RETRY_WINDOW_MS <= Elapsed(9)
  {
    assert Elapsed(3) == 6 * 60_000;
    assert Elapsed(5) == 156 * 60_000;
    assert Elapsed(7) == 876 * 60_000;
    assert Elapsed(9) == 1596 * 60_000;
  }

  /** A partner row whose claims each finish inside their lease is delivered at most eight
      times, begun each time inside twenty-four hours and never sooner than the schedule. */
  lemma PartnerIsDeliveredAtMostEightTimes(s: State, events: seq<Event>, t: State)
    requires Init(s) && s.row.destination.PartnerTracker? && Run(s, events, t) && PromptRun(s, events, t)
    ensures |t.sends| <= |t.calls| <= 8
    ensures forall n :: 0 <= n < |t.calls| ==>
              t.row.occurredAt + Elapsed(n + 1) <= t.calls[n] < WindowEnd(t.row)
    ensures forall n :: 0 <= n < |t.sends| ==> t.sends[n].at < WindowEnd(t.row) + LEASE_MS
  {
    RunIsTimely(s, events, t);
    if |t.calls| > 8 {
      assert InWindow(t.row, t.calls[8]) && t.row.occurredAt + Elapsed(9) <= t.calls[8];
      NineWouldBeTooLate();
    }
  }

  /** And any row, at most seventeen. */
  lemma AnyRowIsDeliveredAtMostSeventeenTimes(s: State, events: seq<Event>, t: State)
    requires Init(s) && Run(s, events, t) && PromptRun(s, events, t)
    ensures |t.sends| <= |t.calls| <= t.row.attempts <= MOST_ATTEMPTS
  {
    RunIsTimely(s, events, t);
  }

  // ---------------------------------------------------------------------------------------
  // Both bounds are met by prompt runs.

  lemma {:induction false} RunsJoin(s: State, a: seq<Event>, u: State, b: seq<Event>, t: State)
    requires Run(s, a, u) && PromptRun(s, a, u) && Run(u, b, t) && PromptRun(u, b, t)
    ensures Run(s, a + b, t) && PromptRun(s, a + b, t)
    decreases |a|
  {
    if a == [] {
      assert a + b == b;
    } else {
      RunsJoin(Apply(s, a[0]), a[1..], u, b, t);
      assert (a + b)[1..] == a[1..] + b;
    }
  }

  lemma Then(start: State, events: seq<Event>, s: State, e: Event) returns (more: seq<Event>, t: State)
    requires Run(start, events, s) && PromptRun(start, events, s) && Enabled(s, e) && Prompt(s) && Prompt(Apply(s, e))
    ensures more == events + [e] && t == Apply(s, e) && Run(start, more, t) && PromptRun(start, more, t)
  {
    more, t := events + [e], Apply(s, e);
    assert [e][1..] == [];
    assert Run(t, [], t) && PromptRun(t, [], t);
    assert Run(s, [e], t) && PromptRun(s, [e], t);
    RunsJoin(start, events, s, [e], t);
  }

  /** A row nobody holds, to be taken no sooner than `at`. */
  ghost predicate Resting(s: State, at: Instant) {
    s.row.status.Pending? && s.row.next <= at && s.clock <= at && forall c :: !Holds(s, c)
  }

  lemma Handed(s: State, c: ClaimId, at: Instant) returns (events: seq<Event>, t: State)
    requires Resting(s, at) && c !in s.leases && !Expired(s.row.destination.PartnerTracker?, s.row.occurredAt, at)
    ensures Run(s, events, t) && PromptRun(s, events, t) && Prompt(t)
    ensures t == State(at, Claimed(s.row, at), s.leases[c := Lease(at, s.row.attempts + 1, Delivering(at, false))], s.calls + [at], s.sends)
  {
    forall c | c in s.leases ensures s.leases[c].phase.Done? { assert !Holds(s, c); }
    var s1, s2: State;
    events, s1 := Then(s, [], s, Tick(at));
    events, s2 := Then(s, events, s1, Take(c));
    events, t := Then(s, events, s2, Decide(c));
  }

  /** A claim that has been taken may still see its own request leave late. */
  ghost predicate MaySendLate(s: State, c: ClaimId) {
    exists events, t :: Run(s, events, t) && PromptRun(s, events, t) && SentLate(t, c)
  }

  ghost predicate SentLate(s: State, c: ClaimId) { exists n :: 0 <= n < |s.sends| && s.sends[n].who == c && WindowEnd(s.row) <= s.sends[n].at }

  lemma {:induction false} LeaseInstantStays(s: State, events: seq<Event>, t: State, c: ClaimId)
    requires Run(s, events, t) && c in s.leases
    ensures c in t.leases && t.leases[c].at == s.leases[c].at
    decreases |events|
  {
    if events != [] { LeaseInstantStays(Apply(s, events[0]), events[1..], t, c); }
  }

  /** A lease that runs past the window's end, taken inside it: the claim decides at once, waits
      for the advisory lock until the end, and sends. */
  lemma LateLeaseSendsLate(s: State, c: ClaimId)
    requires Timely(s) && Prompt(s) && s.row.destination.PartnerTracker? && Enabled(s, Take(c))
    requires WindowEnd(s.row) - LEASE_MS < s.clock < WindowEnd(s.row)
    ensures MaySendLate(Apply(s, Take(c)), c)
  {
    var taken := Apply(s, Take(c));
    TakeIsTimely(s, Take(c));
    assert forall d :: Holds(taken, d) ==> d == c by { assert Holds(taken, c); }
    assert forall d :: d in taken.leases && !taken.leases[d].phase.Done? ==> Holds(taken, d);
    assert Run(taken, [], taken) && PromptRun(taken, [], taken);
    var s1, s2, t: State;
    var events: seq<Event>;
    events, s1 := Then(taken, [], taken, Decide(c));
    events, s2 := Then(taken, events, s1, Tick(WindowEnd(s.row)));
    events, t := Then(taken, events, s2, Send(c));
    assert t.sends[|s.sends|] == Sent(c, WindowEnd(s.row));
  }

  /** Exactly which claims can: a partner's request can leave at or after the twenty-four hours
      if and only if its lease was taken inside them and runs past their end. */
  lemma RequestLeavesLateExactlyWhen(s: State, events: seq<Event>, u: State, c: ClaimId)
    requires Init(s) && s.row.destination.PartnerTracker? && Run(s, events, u) && PromptRun(s, events, u) && Enabled(u, Take(c))
    ensures MaySendLate(Apply(u, Take(c)), c) <==> WindowEnd(u.row) - LEASE_MS < u.clock < WindowEnd(u.row)
  {
    RunIsTimely(s, events, u);
    PromptAtEnd(s, events, u);
    var taken := Apply(u, Take(c));
    TakeIsTimely(u, Take(c));
    forall more, t | Run(taken, more, t) && PromptRun(taken, more, t) && SentLate(t, c)
      ensures WindowEnd(u.row) - LEASE_MS < u.clock < WindowEnd(u.row)
    {
      RunIsTimely(taken, more, t);
      LeaseInstantStays(taken, more, t, c);
      var n :| 0 <= n < |t.sends| && t.sends[n].who == c && WindowEnd(t.row) <= t.sends[n].at;
      assert t.leases[t.sends[n].who].at == u.clock;
    }
    if WindowEnd(u.row) - LEASE_MS < u.clock < WindowEnd(u.row) {
      LateLeaseSendsLate(u, c);
    }
  }

  /** And such a claim is made: a prompt run from the insertion to a late request. */
  lemma LateRequestHappens(s: State) returns (events: seq<Event>, t: State)
    requires Init(s) && s.row.destination.PartnerTracker? && s.row.next <= s.clock == s.row.occurredAt
    ensures Run(s, events, t) && PromptRun(s, events, t) && SentLate(t, 0)
  {
    var waited, taken: State;
    var before: seq<Event>;
    before, waited := Then(s, [], s, Tick(WindowEnd(s.row) - 1));
    RunIsTimely(s, before, waited);
    before, taken := Then(s, before, waited, Take(0));
    LateLeaseSendsLate(waited, 0);
    var more: seq<Event>;
    more, t :| Run(taken, more, t) && PromptRun(taken, more, t) && SentLate(t, 0);
    RunsJoin(s, before, taken, more, t);
    events := before + more;
  }

  lemma {:induction false} PromptAtEnd(s: State, events: seq<Event>, t: State)
    requires Run(s, events, t) && PromptRun(s, events, t)
    ensures Prompt(t)
    decreases |events|
  {
    if events != [] { PromptAtEnd(Apply(s, events[0]), events[1..], t); }
  }

  /** One delivery that fails and is to be tried again. */
  lemma FailedRound(s: State, c: ClaimId, at: Instant) returns (events: seq<Event>, t: State)
    requires Resting(s, at) && c !in s.leases && !Expired(s.row.destination.PartnerTracker?, s.row.occurredAt, at)
    requires s.row.attempts + 1 < MOST_ATTEMPTS
    ensures Run(s, events, t) && PromptRun(s, events, t)
    ensures t.calls == s.calls + [at] && t.sends == s.sends + [Sent(c, at)] && t.leases.Keys == s.leases.Keys + {c}
    ensures t.row == s.row.(attempts := s.row.attempts + 1, next := RetryTime(s.row.destination.PartnerTracker?, s.row.occurredAt, s.row.attempts + 1, at))
    ensures t.clock == at && forall d :: !Holds(t, d)
  {
    var s1, s2, s3: State;
    events, s1 := Handed(s, c, at);
    events, s2 := Then(s, events, s1, Send(c));
    events, s3 := Then(s, events, s2, Answer(c, Failed(true)));
    events, t := Then(s, events, s3, Record(c));
    forall d ensures !Holds(t, d) { assert !Holds(s, d); }
  }

  /** Eight deliveries do happen: a partner that fails each time it is asked, on schedule. */
  lemma {:induction false} EightAreReached(s: State, n: nat) returns (events: seq<Event>, t: State)
    requires Init(s) && s.row.destination.PartnerTracker? && s.clock == s.row.occurredAt == s.row.next && n <= 8
    ensures Run(s, events, t) && PromptRun(s, events, t)
    ensures |t.sends| == n && t.row.attempts == n && t.row.destination.PartnerTracker? && t.row.occurredAt == s.row.occurredAt
    ensures forall c :: c in t.leases ==> c < n
    ensures n < 8 ==> Resting(t, s.row.occurredAt + Elapsed(n + 1))
  {
    if n == 0 {
      events, t := [], s;
      assert Elapsed(1) == 0;
    } else {
      var before: seq<Event>, u: State;
      before, u := EightAreReached(s, n - 1);
      NineWouldBeTooLate();
      ElapsedGrows(n, 8);
      var at := s.row.occurredAt + Elapsed(n);
      events, t := FailedRound(u, n - 1, at);
      RunsJoin(s, before, u, events, t);
      events := before + events;
      if n < 8 { ElapsedGrows(n + 1, 8); }
      assert Elapsed(n + 1) == Elapsed(n) + PartnerDelay(n);
    }
  }

  lemma {:induction false} ElapsedGrows(a: nat, b: nat)
    requires a <= b
    ensures Elapsed(a) <= Elapsed(b)
    decreases b - a
  {
    if a < b {
      ElapsedGrows(a, b - 1);
    }
  }

  // ---------------------------------------------------------------------------------------
  // Without promptness neither bound holds.

  lemma Preceded(s: State, e: Event, events: seq<Event>, t: State)
    requires Enabled(s, e) && Run(Apply(s, e), events, t)
    ensures Run(s, [e] + events, t)
  {
    assert ([e] + events)[1..] == events;
  }

  /** Workers that send and die, each replaced when its lease is over: only a failure that is
      answered looks at the attempts. So a row is delivered as often as one likes, a partner's as
      often as leases fit into its twenty-four hours. */
  lemma {:induction false} AbandonedIsDeliveredAgain(s: State, first: ClaimId, n: nat) returns (events: seq<Event>, t: State)
    requires Due(s.row, s.clock) && forall c :: c in s.leases ==> c < first
    requires s.row.destination.PartnerTracker? && n > 0 ==> s.clock + (n - 1) * LEASE_MS < WindowEnd(s.row)
    ensures Run(s, events, t)
    ensures |t.sends| == |s.sends| + n && |t.calls| == |s.calls| + n && t.row.attempts == s.row.attempts + n
    ensures t.clock == s.clock + n * LEASE_MS
    decreases n
  {
    if n == 0 {
      events, t := [], s;
    } else {
      var s1 := Apply(s, Take(first));
      var s2 := Apply(s1, Decide(first));
      var s3 := Apply(s2, Send(first));
      var s4 := Apply(s3, Tick(s.clock + LEASE_MS));
      events, t := AbandonedIsDeliveredAgain(s4, first + 1, n - 1);
      Preceded(s3, Tick(s.clock + LEASE_MS), events, t);
      Preceded(s2, Send(first), [Tick(s.clock + LEASE_MS)] + events, t);
      Preceded(s1, Decide(first), [Send(first)] + ([Tick(s.clock + LEASE_MS)] + events), t);
      events := [Decide(first)] + ([Send(first)] + ([Tick(s.clock + LEASE_MS)] + events));
      Preceded(s, Take(first), events, t);
      events := [Take(first)] + events;
    }
  }

  /** From the insertion: any number of deliveries to the other destinations, and seven hundred
      and twenty to a partner, the last of them still inside the window. */
  lemma DeliveriesWithoutPromptness(s: State, n: nat) returns (events: seq<Event>, t: State)
    requires Init(s) && s.row.next <= s.clock
    requires s.row.destination.PartnerTracker? ==> s.clock == s.row.occurredAt && n <= 720
    ensures Run(s, events, t) && |t.sends| == |t.calls| == n
  {
    events, t := AbandonedIsDeliveredAgain(s, 0, n);
  }

  // ---------------------------------------------------------------------------------------
  // The repository, row by row.

  /** A row that some prompt run of its machine has brought here. */
  ghost predicate Lived(t: State) { exists s, events :: Init(s) && Run(s, events, t) && PromptRun(s, events, t) }

  lemma LivesOn(t: State, e: Event)
    requires Lived(t) && Enabled(t, e) && Prompt(Apply(t, e))
    ensures Lived(Apply(t, e))
  {
    var s, events :| Init(s) && Run(s, events, t) && PromptRun(s, events, t);
    PromptAtEnd(s, events, t);
    var more, u := Then(s, events, t, e);
  }

  /** Everything said of prompt runs is said of such a row. */
  lemma LivedIsBounded(t: State)
    requires Lived(t)
    ensures |t.sends| <= |t.calls| <= t.row.attempts <= MOST_ATTEMPTS
    ensures t.row.destination.PartnerTracker? ==>
              |t.calls| <= 8 && forall n :: 0 <= n < |t.calls| ==> InWindow(t.row, t.calls[n])
  {
    var s, events :| Init(s) && Run(s, events, t) && PromptRun(s, events, t);
    AnyRowIsDeliveredAtMostSeventeenTimes(s, events, t);
    RunIsTimely(s, events, t);
    if t.row.destination.PartnerTracker? { PartnerIsDeliveredAtMostEightTimes(s, events, t); }
  }

  /** Nobody holds the row at this instant. */
  ghost predicate Free(t: State) { forall c :: !Holds(t, c) }

  lemma DueIsFree(t: State)
    requires Lived(t) && Due(t.row, t.clock)
    ensures Free(t) && Prompt(t)
  {
    var s, events :| Init(s) && Run(s, events, t) && PromptRun(s, events, t);
    RunIsTimely(s, events, t);
    PromptAtEnd(s, events, t);
    HeldIsNotDue(t);
  }

  lemma HeldIsNotDue(t: State)
    requires Timely(t) && Prompt(t)
    ensures (exists c :: Holds(t, c)) ==> !Due(t.row, t.clock)
  {
    if c :| Holds(t, c) { assert HolderRight(t, t.leases[c]); }
  }

  /** The row once a cycle has claimed it and is done with it, at one instant. */
  function AfterCycle(r: Row, now: Instant, result: Result): Row {
    var partner := r.destination.PartnerTracker?;
    Reported(Claimed(r, now),
             if Expired(partner, r.occurredAt, now) then MarkDead else ActionFor(partner, r.occurredAt, r.attempts + 1, now, result))
  }

  /** The instants a cycle hands the row on at: none for a partner's that has run out. */
  function CallsOf(r: Row, now: Instant): seq<Instant> {
    if Expired(r.destination.PartnerTracker?, r.occurredAt, now) then [] else [now]
  }

  /** The row's machine through one such cycle. */
  ghost predicate Delivers(t: State, u: State, now: Instant, result: Result) {
    && u.row == AfterCycle(t.row, now, result) && u.calls == t.calls + CallsOf(t.row, now)
    && |u.sends| == |t.sends| + |CallsOf(t.row, now)|
  }

  lemma Taken(t: State, result: Result) returns (u: State)
    requires Lived(t) && Due(t.row, t.clock)
    ensures Lived(u) && Free(u) && u.clock == t.clock && Delivers(t, u, t.clock, result)
  {
    DueIsFree(t);
    var c := Unused(t.leases.Keys);
    TakenAloneIsPrompt(t, c);
    LivesOn(t, Take(c));
    forall d ensures Holds(Apply(t, Take(c)), d) ==> d == c { assert !Holds(t, d); }
    u := DeliveredAtOnce(Apply(t, Take(c)), c, result);
  }

  lemma TakenAloneIsPrompt(t: State, c: ClaimId)
    requires Free(t) && Enabled(t, Take(c))
    ensures Prompt(Apply(t, Take(c)))
  {
    forall d | d in t.leases ensures t.leases[d].phase.Done? { assert !Holds(t, d); }
  }

  lemma DeliveredAtOnce(t: State, c: ClaimId, result: Result) returns (u: State)
    requires Lived(t) && Prompt(t) && c in t.leases && t.leases[c] == Lease(t.clock, t.row.attempts, Leased) && t.row.attempts > 0
    requires forall d :: Holds(t, d) ==> d == c
    ensures Lived(u) && Free(u) && u.clock == t.clock
    ensures var action := if Expired(t.row.destination.PartnerTracker?, t.row.occurredAt, t.clock) then MarkDead
                          else ActionFor(t.row.destination.PartnerTracker?, t.row.occurredAt, t.row.attempts, t.clock, result);
            u.row == Reported(t.row, action)
    ensures u.calls == t.calls + CallsOf(t.row, t.clock) && |u.sends| == |t.sends| + |CallsOf(t.row, t.clock)|
  {
    LivesOn(t, Decide(c));
    u := Apply(t, Decide(c));
    if u.leases[c].phase.Delivering? {
      LivesOn(u, Send(c));
      u := Apply(u, Send(c));
      LivesOn(u, Answer(c, result));
      u := Apply(u, Answer(c, result));
    }
    LivesOn(u, Record(c));
    u := Apply(u, Record(c));
    forall d ensures !Holds(u, d) { assert d != c ==> !Holds(t, d); }
  }

  ghost predicate Settled(rows: map<RowId, Row>, lives: map<RowId, State>, now: Instant, r: RowId) {
    r in rows && r in lives && lives[r].row == rows[r] && lives[r].clock == now && Lived(lives[r]) && Free(lives[r])
  }

  /** What the repository holds, against the machine of each of its rows. */
  ghost predicate Keeps(rows: map<RowId, Row>, lives: map<RowId, State>, now: Instant) {
    lives.Keys == rows.Keys && forall r :: r in rows ==> Settled(rows, lives, now, r)
  }

  /** Between cycles time passes, and nothing else. */
  lemma TimePasses(rows: map<RowId, Row>, lives: map<RowId, State>, now: Instant, later: Instant)
    requires Keeps(rows, lives, now) && now <= later
    ensures Keeps(rows, map r | r in lives :: lives[r].(clock := later), later)
  {
    forall r | r in rows ensures Settled(rows, map q | q in lives :: lives[q].(clock := later), later, r) {
      var t := lives[r];
      assert Settled(rows, lives, now, r);
      var u := Apply(t, Tick(later));
      forall c ensures !Holds(u, c) { assert !Holds(t, c); }
      forall c | c in u.leases ensures u.leases[c].phase.Done? { assert !Holds(t, c); }
      LivesOn(t, Tick(later));
    }
  }

  /** One row of a cycle, once claimed. */
  method DeliverOne(repository: Repository, id: RowId, now: Instant, result: Result, ghost life: State) returns (ghost u: State)
    requires id in repository.rows && Lived(life) && life.clock == now && Due(life.row, now) && repository.rows[id] == Claimed(life.row, now)
    modifies repository
    ensures Lived(u) && Free(u) && u.clock == now && Delivers(life, u, now, result)
    ensures repository.rows == old(repository.rows)[id := u.row]
  {
    var delivers := repository.RunRow(id, repository.rows[id], now, result);
    u := Taken(life, result);
  }

  /** A row as a claim has just left it. */
  ghost predicate JustClaimed(rows: map<RowId, Row>, lives: map<RowId, State>, now: Instant, r: RowId) {
    && r in rows && r in lives && lives[r].clock == now && Lived(lives[r])
    && Due(lives[r].row, now) && rows[r] == Claimed(lives[r].row, now)
  }

  /** The claimed rows from the n-th on are as the claim left them; the others are settled. */
  ghost predicate Halfway(rows: map<RowId, Row>, lives: map<RowId, State>, now: Instant, claimed: seq<RowId>, n: nat) {
    && lives.Keys == rows.Keys
    && (forall k :: n <= k < |claimed| ==> JustClaimed(rows, lives, now, claimed[k]))
    && (forall r :: r in rows && r !in claimed ==> Settled(rows, lives, now, r))
    && (forall k :: 0 <= k < |claimed| && k < n ==> Settled(rows, lives, now, claimed[k]))
  }

  lemma OneMoreSettled(rows: map<RowId, Row>, lives: map<RowId, State>, now: Instant, claimed: seq<RowId>, n: nat, u: State)
    requires Halfway(rows, lives, now, claimed, n) && n < |claimed| && Lived(u) && Free(u) && u.clock == now
    requires forall i, j :: 0 <= i < j < |claimed| ==> claimed[i] != claimed[j]
    ensures Halfway(rows[claimed[n] := u.row], lives[claimed[n] := u], now, claimed, n + 1)
  {
    var rows', lives' := rows[claimed[n] := u.row], lives[claimed[n] := u];
    forall k | n + 1 <= k < |claimed| ensures JustClaimed(rows', lives', now, claimed[k]) { assert JustClaimed(rows, lives, now, claimed[k]); }
    forall r | r in rows' && r !in claimed ensures Settled(rows', lives', now, r) { assert Settled(rows, lives, now, r); }
    forall k | 0 <= k < |claimed| && k < n + 1 ensures Settled(rows', lives', now, claimed[k]) {
      if k < n { assert Settled(rows, lives, now, claimed[k]); }
    }
  }

  /** So many of the claimed rows have been through their delivery, and nothing else has moved. */
  ghost predicate PartWay(lives: map<RowId, State>, after: map<RowId, State>, now: Instant, claimed: seq<RowId>, results: RowId -> Result, n: nat) {
    && after.Keys == lives.Keys
    && (forall r :: r in lives && r !in claimed ==> after[r] == lives[r])
    && (forall k :: n <= k < |claimed| ==> claimed[k] in lives && after[claimed[k]] == lives[claimed[k]])
    && (forall k :: 0 <= k < |claimed| && k < n ==> claimed[k] in lives && Delivers(lives[claimed[k]], after[claimed[k]], now, results(claimed[k])))
  }

  lemma OneMoreDelivered(lives: map<RowId, State>, after: map<RowId, State>, now: Instant, claimed: seq<RowId>, results: RowId -> Result, n: nat, u: State)
    requires PartWay(lives, after, now, claimed, results, n) && n < |claimed| && Delivers(after[claimed[n]], u, now, results(claimed[n]))
    requires forall i, j :: 0 <= i < j < |claimed| ==> claimed[i] != claimed[j]
    ensures PartWay(lives, after[claimed[n] := u], now, claimed, results, n + 1)
  {
    forall k | 0 <= k < n + 1 ensures Delivers(lives[claimed[k]], after[claimed[n] := u][claimed[k]], now, results(claimed[k])) {
      if k < n { assert Delivers(lives[claimed[k]], after[claimed[k]], now, results(claimed[k])); }
    }
  }

  method DeliverEach(repository: Repository, claimed: seq<RowId>, now: Instant, results: RowId -> Result, ghost lives: map<RowId, State>)
    returns (ghost after: map<RowId, State>)
    requires forall i, j :: 0 <= i < j < |claimed| ==> claimed[i] != claimed[j]
    requires Halfway(repository.rows, lives, now, claimed, 0)
    modifies repository
    ensures Halfway(repository.rows, after, now, claimed, |claimed|) && PartWay(lives, after, now, claimed, results, |claimed|)
  {
    after := lives;
    var n := 0;
    while n < |claimed|
      invariant 0 <= n <= |claimed| && Halfway(repository.rows, after, now, claimed, n)
      invariant PartWay(lives, after, now, claimed, results, n)
    {
      var id := claimed[n];
      assert JustClaimed(repository.rows, after, now, id);
      ghost var was := repository.rows;
      ghost var u := DeliverOne(repository, id, now, results(id), after[id]);
      OneMoreSettled(was, after, now, claimed, n, u);
      OneMoreDelivered(lives, after, now, claimed, results, n, u);
      after := after[id := u];
      n := n + 1;
    }
  }

  /** A cycle with nobody in between and no time passing: which rows it claims, where each of
      them ends, and that the machine of each is handed on once, unless it has run out. No other
      row is touched. So a repository whose rows have each been brought here by prompt runs stays
      one, and has every bound above row by row. */
  method RunOutboxCycle(repository: Repository, limit: nat, now: Instant, locked: set<RowId>, results: RowId -> Result,
                        ghost lives: map<RowId, State>)
    returns (claimed: seq<RowId>, ghost after: map<RowId, State>)
    requires Keeps(repository.rows, lives, now)
    modifies repository
    ensures Takes(old(repository.rows), repository.destinations, limit, now, locked, claimed)
    ensures repository.rows == map r | r in old(repository.rows) ::
                                 if r in claimed then AfterCycle(old(repository.rows)[r], now, results(r)) else old(repository.rows)[r]
    ensures Keeps(repository.rows, after, now)
    ensures forall r :: r in lives ==>
              r in after && if r in claimed then Delivers(lives[r], after[r], now, results(r)) else after[r] == lives[r]
  {
    ghost var was := repository.rows;
    claimed := repository.Claim(limit, now, locked);
    ClaimsAreHalfway(was, repository.rows, lives, now, claimed);
    after := DeliverEach(repository, claimed, now, results, lives);
    DeliveredIsSettled(was, repository.rows, lives, after, now, claimed, results);
  }

  lemma ClaimsAreHalfway(was: map<RowId, Row>, rows: map<RowId, Row>, lives: map<RowId, State>, now: Instant, claimed: seq<RowId>)
    requires Keeps(was, lives, now) && forall c :: c in claimed ==> c in was && Due(was[c], now)
    requires rows == map r | r in was :: if r in claimed then Claimed(was[r], now) else was[r]
    ensures Halfway(rows, lives, now, claimed, 0)
  {
    forall k | 0 <= k < |claimed| ensures JustClaimed(rows, lives, now, claimed[k]) {
      assert claimed[k] in claimed && Settled(was, lives, now, claimed[k]);
    }
    forall r | r in rows && r !in claimed ensures Settled(rows, lives, now, r) {
      assert Settled(was, lives, now, r);
    }
  }

  lemma DeliveredIsSettled(was: map<RowId, Row>, rows: map<RowId, Row>, lives: map<RowId, State>, after: map<RowId, State>,
                           now: Instant, claimed: seq<RowId>, results: RowId -> Result)
    requires Keeps(was, lives, now)
    requires Halfway(rows, after, now, claimed, |claimed|) && PartWay(lives, after, now, claimed, results, |claimed|)
    ensures Keeps(rows, after, now)
    ensures rows == map r | r in was :: if r in claimed then AfterCycle(was[r], now, results(r)) else was[r]
  {
    forall r | r in rows
      ensures Settled(rows, after, now, r) && rows[r] == if r in claimed then AfterCycle(was[r], now, results(r)) else was[r]
    {
      assert Settled(was, lives, now, r);
      if r in claimed { var k :| 0 <= k < |claimed| && claimed[k] == r; }
    }
  }
}

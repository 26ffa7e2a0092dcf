/** One request to the partner every 1100 milliseconds, across any number of workers, held to
    that by one advisory lock; and what one call owes its database client on every path. */
module PartnerRateLimiter {
  import opened Basics

  type Instant = int

  const MIN_INTERVAL_MS := 1_100

  // ---------------------------------------------------------------------------------------
  // One call.

  datatype Result = Ok | Failed(code: string, retryable: bool)

  const LIMITER_ERROR := Failed("partner_tracker_rate_limiter_error", true)
  const DELIVERY_ERROR := Failed("partner_tracker_delivery_error", true)

  datatype LockAnswer = Granted | GrantedAndLost | NotGranted        // the last two throw
  datatype UnlockAnswer = Answers(stillHeld: bool) | Throws(freed: bool)

  /** What one call meets; `delivery` is None where the deliverer throws. */
  datatype World = World(connects: bool, lock: LockAnswer, startedAt: Instant, delivery: Option<Result>,
                         finishedAt: Instant, waits: bool, unlock: UnlockAnswer)

  /** A pooled connection: what the pool sees of it, and whether its session has the lock. */
  class Client {
    var holdsLock: bool
    var releases: nat
    var destroyed: bool

    constructor ()
      ensures !holdsLock && releases == 0 && !destroyed
    {
      holdsLock, releases, destroyed := false, 0, false;
    }

    method Lock(answer: LockAnswer) returns (ok: bool)
      modifies this`holdsLock
      ensures holdsLock == (old(holdsLock) || !answer.NotGranted?) && ok == answer.Granted?
    {
      if !answer.NotGranted? { holdsLock := true; }
      ok := answer.Granted?;
    }

    /** The server answers whether the session had the lock to give up. */
    method Unlock(answer: UnlockAnswer) returns (unlocked: Option<bool>)
      modifies this`holdsLock
      ensures answer.Answers? ==> !holdsLock && unlocked == Some(old(holdsLock) && answer.stillHeld)
      ensures answer.Throws? ==> unlocked == None && holdsLock == (old(holdsLock) && !answer.freed)
    {
      match answer {
        case Answers(stillHeld) =>
          unlocked := Some(holdsLock && stillHeld);
          holdsLock := false;
        case Throws(freed) =>
          unlocked := None;
          if freed { holdsLock := false; }
      }
    }

    method Release(withError: bool)
      modifies this
      ensures releases == old(releases) + 1 && destroyed == withError
      ensures holdsLock == (old(holdsLock) && !withError)
    {
      releases := releases + 1;
      destroyed := withError;
      if withError { holdsLock := false; }
    }
  }

  predicate Delivers(w: World) { w.connects && w.lock.Granted? }

  function Remaining(w: World): int { MIN_INTERVAL_MS - (w.finishedAt - w.startedAt) }

  /** The delivery's own result wherever there was a delivery, whatever went wrong after it. */
  function ResultOf(w: World): Result {
    if !Delivers(w) then LIMITER_ERROR
    else match w.delivery
      case Some(result) => result
      case None => DELIVERY_ERROR
  }

  predicate Clean(w: World) {
    Delivers(w) && (Remaining(w) > 0 ==> w.waits) && w.unlock == Answers(true)
  }

  /** On every path the client goes back exactly once, without the lock, and as good as new
      exactly where nothing went wrong; and a finished delivery is what is answered. */
  method DeliverRateLimited(w: World) returns (result: Result, client: Option<Client>)
    ensures result == ResultOf(w)
    ensures client.Some? <==> w.connects
    ensures client.Some? ==> fresh(client.value) && client.value.releases == 1 && !client.value.holdsLock
    ensures client.Some? ==> (client.value.destroyed <==> !Clean(w))
  {
    client := None;
    var lockHeld, destroyConnection, deliveryFinished, threw := false, false, false, false;
    result := LIMITER_ERROR;

    // try
    if w.connects {
      var connected := new Client();
      client := Some(connected);
      var ok := connected.Lock(w.lock);
      if ok {
        lockHeld := true;
        match w.delivery {
          case Some(answered) => result := answered;
          case None => result := DELIVERY_ERROR;
        }
        deliveryFinished := true;
        if Remaining(w) > 0 && !w.waits { threw := true; }
      } else {
        threw := true;
      }
    } else {
      threw := true;
    }

    // catch
    if threw {
      destroyConnection := client.Some?;
      if !deliveryFinished { result := LIMITER_ERROR; }
    }

    // finally
    if client.Some? && lockHeld {
      var unlocked := client.value.Unlock(w.unlock);
      match unlocked {
        case Some(yes) => if !yes { destroyConnection := true; }
        case None =>
          destroyConnection := true;
          if !deliveryFinished { result := LIMITER_ERROR; }
      }
    }
    if client.Some? {
      client.value.Release(destroyConnection);
    }
  }

  // ---------------------------------------------------------------------------------------
  // Any number of workers.

  type WorkerId = nat

  datatype Pc =
    | Asking                      // `pg_advisory_lock` is waiting
    | Locked
    | Delivering(at: Instant)     // the start is recorded, the deliverer runs
    | Sleeping(at: Instant)       // waiting out what is left of the interval
    | Unlocking
    | Over

  datatype State = State(clock: Instant, holder: Option<WorkerId>, workers: map<WorkerId, Pc>, starts: seq<Instant>)

  datatype Event =
    | Tick(to: Instant)
    | Ask(id: WorkerId)
    | LockThrew(id: WorkerId)      // not granted, or granted and the connection destroyed
    | Grant(id: WorkerId)
    | Start(id: WorkerId)
    | Finish(id: WorkerId)         // the delivery is over, or threw
    | Wake(id: WorkerId)           // the wait completed
    | WaitThrew(id: WorkerId)
    | Unlock(id: WorkerId)         // or the connection destroyed: the session's lock goes either way
    | SessionLost(id: WorkerId)    // the server drops the session; a dying worker is one of these

  predicate In(s: State, i: WorkerId) { i in s.workers }

  predicate Enabled(s: State, e: Event) {
    match e
    case Tick(to) => s.clock <= to
    case Ask(i) => !In(s, i)
    case LockThrew(i) => In(s, i) && s.workers[i].Asking?
    case Grant(i) => In(s, i) && s.workers[i].Asking? && s.holder.None?
    case Start(i) => In(s, i) && s.workers[i].Locked?
    case Finish(i) => In(s, i) && s.workers[i].Delivering?
    case Wake(i) => In(s, i) && s.workers[i].Sleeping? && s.workers[i].at + MIN_INTERVAL_MS <= s.clock
    case WaitThrew(i) => In(s, i) && s.workers[i].Sleeping?
    case Unlock(i) => In(s, i) && s.workers[i].Unlocking?
    case SessionLost(i) => In(s, i) && s.holder == Some(i)
  }

  function To(s: State, i: WorkerId, pc: Pc): State { s.(workers := s.workers[i := pc]) }

  function Apply(s: State, e: Event): State
    requires Enabled(s, e)
  {
    match e
    case Tick(to) => s.(clock := to)
    case Ask(i) => To(s, i, Asking)
    case LockThrew(i) => To(s, i, Over)
    case Grant(i) => To(s, i, Locked).(holder := Some(i))
    case Start(i) => To(s, i, Delivering(s.clock)).(starts := s.starts + [s.clock])
    case Finish(i) =>
      if MIN_INTERVAL_MS - (s.clock - s.workers[i].at) > 0 then To(s, i, Sleeping(s.workers[i].at)) else To(s, i, Unlocking)
    case Wake(i) => To(s, i, Unlocking)
    case WaitThrew(i) => To(s, i, Unlocking)
    case Unlock(i) => To(s, i, Over).(holder := if s.holder == Some(i) then None else s.holder)
    case SessionLost(i) => s.(holder := None)
  }

  ghost predicate Run(s: State, events: seq<Event>, t: State)
    decreases |events|
  {
    if events == [] then s == t
    else Enabled(s, events[0]) && Run(Apply(s, events[0]), events[1..], t)
  }

  predicate PastLock(pc: Pc) { pc.Locked? || pc.Delivering? || pc.Sleeping? || pc.Unlocking? }

  predicate Started(pc: Pc) { pc.Delivering? || pc.Sleeping? }

  /** A session lost before the start is recorded, or before its interval is over; or a wait that
      throws before the interval is over. */
  predicate Harmful(s: State, e: Event)
    requires Enabled(s, e)
  {
    match e
    case SessionLost(i) => s.workers[i].Locked? || (Started(s.workers[i]) && s.clock < s.workers[i].at + MIN_INTERVAL_MS)
    case WaitThrew(i) => s.clock < s.workers[i].at + MIN_INTERVAL_MS
    case _ => false
  }

  ghost predicate Harmless(s: State, events: seq<Event>)
    decreases |events|
  {
    events != [] ==> Enabled(s, events[0]) && !Harmful(s, events[0]) && Harmless(Apply(s, events[0]), events[1..])
  }

  ghost predicate Spaced(starts: seq<Instant>) {
    forall n :: 0 < n < |starts| ==> starts[n - 1] + MIN_INTERVAL_MS <= starts[n]
  }

  /** The interval after the last start is over, or its worker has the lock. */
  ghost predicate LastIsKept(s: State) {
    s.starts != [] ==>
      var last := s.starts[|s.starts| - 1];
      || last + MIN_INTERVAL_MS <= s.clock
      || (s.holder.Some? && s.holder.value in s.workers && Started(s.workers[s.holder.value]) && s.workers[s.holder.value].at == last)
  }

  /** Past the lock a worker has it, unless it has lost it after its interval. */
  predicate WorkerRight(s: State, i: WorkerId)
    requires i in s.workers
  {
    var pc := s.workers[i];
    && (pc.Locked? ==> s.holder == Some(i))
    && (Started(pc) ==>
          || pc.at + MIN_INTERVAL_MS <= s.clock
          || (s.holder == Some(i) && s.starts != [] && pc.at == s.starts[|s.starts| - 1]))
    && (s.holder == Some(i) ==> PastLock(pc))
  }

  ghost predicate Inv(s: State) {
    && (forall i :: i in s.workers ==> WorkerRight(s, i))
    && (s.holder.Some? ==> s.holder.value in s.workers)
    && Spaced(s.starts)
    && LastIsKept(s)
  }

  lemma StepKeepsInv(s: State, e: Event)
    requires Inv(s) && Enabled(s, e) && !Harmful(s, e)
    ensures Inv(Apply(s, e))
  {
    var t := Apply(s, e);
    if !e.Tick? {
      assert e.id in s.workers ==> WorkerRight(s, e.id);
      assert s.holder.Some? ==> WorkerRight(s, s.holder.value);
    }
    forall j | j in t.workers ensures WorkerRight(t, j) {
      if j in s.workers { assert WorkerRight(s, j); }
    }
  }

  lemma {:induction false} RunKeepsInv(s: State, events: seq<Event>, t: State)
    requires Inv(s) && Run(s, events, t) && Harmless(s, events)
    ensures Inv(t)
    decreases |events|
  {
    if events != [] {
      StepKeepsInv(s, events[0]);
      RunKeepsInv(Apply(s, events[0]), events[1..], t);
    }
  }

  const QUIET := State(0, None, map[], [])

  lemma {:induction false} SpacedApart(starts: seq<Instant>, i: nat, j: nat)
    requires Spaced(starts) && i <= j < |starts|
    ensures starts[i] + MIN_INTERVAL_MS * (j - i) <= starts[j]
    decreases j
  {
    if i < j { SpacedApart(starts, i, j - 1); }
  }

  /** However many workers contend, and whatever they lose once an interval is over, any two
      recorded starts are a whole interval apart for every start from the one to the other. */
  lemma StartsAreSpaced(events: seq<Event>, t: State, i: nat, j: nat)
    requires Run(QUIET, events, t) && Harmless(QUIET, events) && i < j < |t.starts|
    ensures t.starts[j] - t.starts[i] >= MIN_INTERVAL_MS * (j - i)
  {
    RunKeepsInv(QUIET, events, t);
    SpacedApart(t.starts, i, j);
  }

  // ---------------------------------------------------------------------------------------
  // Exactly when the spacing can be lost.

  ghost predicate Reach(s: State, events: seq<Event>, t: State) { Run(s, events, t) && Harmless(s, events) }

  ghost predicate MayBunch(s: State) { exists events, t :: Reach(s, events, t) && !Spaced(t.starts) }

  lemma {:induction false} ReachThen(start: State, events: seq<Event>, s: State, e: Event) returns (more: seq<Event>, t: State)
    requires Reach(start, events, s) && Enabled(s, e) && !Harmful(s, e)
    ensures more == events + [e] && t == Apply(s, e) && Reach(start, more, t)
    decreases |events|
  {
    more, t := events + [e], Apply(s, e);
    if events == [] {
      assert more == [e] && [e][1..] == [] && Run(t, [], t) && Harmless(t, []);
    } else {
      var rest, u := ReachThen(Apply(start, events[0]), events[1..], s, e);
      assert more[1..] == rest;
    }
  }

  /** With the lock free, a worker that asks now starts now. */
  lemma AnotherStartsNow(start: State, before: seq<Event>, s: State) returns (events: seq<Event>, t: State)
    requires Reach(start, before, s) && s.holder.None?
    ensures Reach(start, events, t) && t.starts == s.starts + [s.clock] && t.clock == s.clock
    ensures forall i :: i in s.workers ==> i in t.workers && t.workers[i] == s.workers[i]
  {
    var j := Unused(s.workers.Keys);
    var s1, s2: State;
    events, s1 := ReachThen(start, before, s, Ask(j));
    events, s2 := ReachThen(start, events, s1, Grant(j));
    events, t := ReachThen(start, events, s2, Start(j));
  }

  /** Lost before the start is recorded: another worker starts, and then this one does too. */
  lemma LostBeforeItsStart(s: State, i: WorkerId)
    requires Enabled(s, SessionLost(i)) && s.workers[i].Locked?
    ensures MayBunch(Apply(s, SessionLost(i)))
  {
    var lost := Apply(s, SessionLost(i));
    assert Reach(lost, [], lost);
    var events, s1 := AnotherStartsNow(lost, [], lost);
    var t: State;
    events, t := ReachThen(lost, events, s1, Start(i));
    assert t.starts[|s.starts|] == t.starts[|s.starts| + 1] == s.clock;
  }

  lemma LostInsideItsInterval(s: State, i: WorkerId)
    requires Inv(s) && Enabled(s, SessionLost(i)) && Started(s.workers[i]) && s.clock < s.workers[i].at + MIN_INTERVAL_MS
    ensures MayBunch(Apply(s, SessionLost(i)))
  {
    assert WorkerRight(s, i);
    var lost := Apply(s, SessionLost(i));
    assert Reach(lost, [], lost);
    var events, t := AnotherStartsNow(lost, [], lost);
    assert t.starts[|s.starts| - 1] == s.workers[i].at && t.starts[|s.starts|] == s.clock;
  }

  /** The lock is given up early. */
  lemma WaitBrokenInsideItsInterval(s: State, i: WorkerId)
    requires Inv(s) && Enabled(s, WaitThrew(i)) && s.clock < s.workers[i].at + MIN_INTERVAL_MS
    ensures MayBunch(Apply(s, WaitThrew(i)))
  {
    assert WorkerRight(s, i);
    var awake := Apply(s, WaitThrew(i));
    assert Reach(awake, [], awake);
    var events, s1 := ReachThen(awake, [], awake, Unlock(i));
    var t: State;
    events, t := AnotherStartsNow(awake, events, s1);
    assert t.starts[|s.starts| - 1] == s.workers[i].at && t.starts[|s.starts|] == s.clock;
  }

  /** From a state that harmless runs keep, a step opens the way to two starts less than an
      interval apart if and only if it is a harmful one. */
  lemma StartsBunchExactlyWhen(s: State, e: Event)
    requires Inv(s) && Enabled(s, e)
    ensures MayBunch(Apply(s, e)) <==> Harmful(s, e)
  {
    if Harmful(s, e) {
      if e.WaitThrew? {
        WaitBrokenInsideItsInterval(s, e.id);
      } else if s.workers[e.id].Locked? {
        LostBeforeItsStart(s, e.id);
      } else {
        LostInsideItsInterval(s, e.id);
      }
    } else {
      StepKeepsInv(s, e);
      forall events, t | Reach(Apply(s, e), events, t) ensures Spaced(t.starts) {
        RunKeepsInv(Apply(s, e), events, t);
      }
    }
  }

  /** Each is reached from the start. */
  lemma HarmHappens() returns (locked: State, delivering: State, sleeping: State)
    ensures exists events :: Reach(QUIET, events, locked)
    ensures exists events :: Reach(QUIET, events, delivering)
    ensures exists events :: Reach(QUIET, events, sleeping)
    ensures Enabled(locked, SessionLost(0)) && Harmful(locked, SessionLost(0))
    ensures Enabled(delivering, SessionLost(0)) && Harmful(delivering, SessionLost(0))
    ensures Enabled(sleeping, WaitThrew(0)) && Harmful(sleeping, WaitThrew(0))
  {
    var events, s := ReachThen(QUIET, [], QUIET, Ask(0));
    events, locked := ReachThen(QUIET, events, s, Grant(0));
    events, delivering := ReachThen(QUIET, events, locked, Start(0));
    events, sleeping := ReachThen(QUIET, events, delivering, Finish(0));
  }

  // ---------------------------------------------------------------------------------------
  // One call, from the first line to the last with nobody in between.

  /** The call of `DeliverRateLimited` in the same world is a run of the machine: one start where
      it delivers and none where it does not, the lock free again after it, and nothing harmful
      in it unless its own wait throws. */
  lemma CallIsARun(w: World, s: State, id: WorkerId) returns (events: seq<Event>, t: State)
    requires id !in s.workers && s.holder.None? && s.clock <= w.startedAt <= w.finishedAt
    ensures Run(s, events, t) && t.holder.None? && forall i :: i in s.workers ==> i in t.workers && t.workers[i] == s.workers[i]
    ensures t.starts == s.starts + (if Delivers(w) then [w.startedAt] else [])
    ensures w.connects ==> id in t.workers && t.workers[id].Over?
    ensures Remaining(w) <= 0 || w.waits || !Delivers(w) ==> Harmless(s, events)
  {
    events, t := [], s;
    assert Reach(s, events, s);
    if !w.connects { return; }
    events, t := ReachThen(s, events, t, Ask(id));
    if !w.lock.Granted? {
      events, t := ReachThen(s, events, t, LockThrew(id));
      return;
    }
    events, t := DeliveredAlone(w, s, events, t, id);
    if Remaining(w) <= 0 {
      events, t := UnlockedAlone(w, s, events, t, id);
    } else if w.waits {
      events, t := ReachThen(s, events, t, Tick(w.startedAt + MIN_INTERVAL_MS));
      events, t := ReachThen(s, events, t, Wake(id));
      events, t := UnlockedAlone(w, s, events, t, id);
    } else {
      var early := Apply(t, WaitThrew(id));
      assert Reach(early, [], early);
      var rest, u := UnlockedAlone(w, early, [], early, id);
      RunsOn(s, events, t, WaitThrew(id), rest, u);
      events, t := events + ([WaitThrew(id)] + rest), u;
    }
  }

  lemma DeliveredAlone(w: World, start: State, before: seq<Event>, s: State, id: WorkerId) returns (events: seq<Event>, t: State)
    requires Reach(start, before, s) && id in s.workers && s.workers[id].Asking? && s.holder.None? && s.clock <= w.startedAt <= w.finishedAt
    ensures Reach(start, events, t) && t.starts == s.starts + [w.startedAt] && t.clock == w.finishedAt && t.holder == Some(id)
    ensures t.workers == s.workers[id := if Remaining(w) > 0 then Sleeping(w.startedAt) else Unlocking]
  {
    var s1, s2, s3, s4: State;
    events, s1 := ReachThen(start, before, s, Tick(w.startedAt));
    events, s2 := ReachThen(start, events, s1, Grant(id));
    events, s3 := ReachThen(start, events, s2, Start(id));
    events, s4 := ReachThen(start, events, s3, Tick(w.finishedAt));
    events, t := ReachThen(start, events, s4, Finish(id));
  }

  /** Where the server answers that the session no longer had the lock, it was lost on the way. */
  lemma UnlockedAlone(w: World, start: State, before: seq<Event>, s: State, id: WorkerId) returns (events: seq<Event>, t: State)
    requires Reach(start, before, s) && id in s.workers && s.workers[id].Unlocking? && s.holder == Some(id)
    ensures Reach(start, events, t) && t == s.(workers := s.workers[id := Over], holder := None)
  {
    var lost := s;
    events := before;
    if w.unlock == Answers(false) {
      events, lost := ReachThen(start, before, s, SessionLost(id));
    }
    events, t := ReachThen(start, events, lost, Unlock(id));
  }

  lemma {:induction false} RunsOn(start: State, before: seq<Event>, s: State, e: Event, rest: seq<Event>, t: State)
    requires Run(start, before, s) && Enabled(s, e) && Run(Apply(s, e), rest, t)
    ensures Run(start, before + ([e] + rest), t)
    decreases |before|
  {
    var all := before + ([e] + rest);
    if before == [] {
      assert all[1..] == rest;
    } else {
      RunsOn(Apply(start, before[0]), before[1..], s, e, rest, t);
      assert all[1..] == before[1..] + ([e] + rest);
    }
  }
}

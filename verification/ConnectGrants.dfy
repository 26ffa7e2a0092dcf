/** The Connect a merchant presses and the callback their shop answers it with: grants begun,
    swept, spent by callbacks anybody may post, and the connections those callbacks write. */
module ConnectGrants {
  import opened Basics
  import opened WooShops

  type CallbackId = nat

  const GRANT_MS := 15 * 60_000

  /** The body a callback posts, each field "" where it is missing or not a string. */
  datatype Body = Body(userId: Token, consumerKey: string, consumerSecret: string, permissions: string)

  datatype Phase =
    | Spending(body: Body)
    | Connecting(body: Body, grant: Grant)
    | Replied(status: int)
    | SpendAdrift(body: Body)                  // threw, and answered 500 if anybody was left to;
    | ConnectAdrift(body: Body, grant: Grant)  // what it had sent may still land
    | Gone

  datatype Spend = Spend(grant: Grant, at: Instant)

  /** What the store holds, and beside it what happened: every grant begun, every grant a
      callback was handed, every token a callback used up, every connection written. */
  datatype State = State(
    clock: Instant,
    held: Grants,
    connections: map<string, Connection>,
    callbacks: map<CallbackId, Phase>,
    begun: Grants,
    used: set<Token>,
    spends: seq<Spend>,
    written: seq<(Token, Connection)>)

  datatype Event =
    | Tick(to: Instant)
    | Begin(token: Token, accountId: string, shopUrl: string, asOf: Instant)
    | Sweep(asOf: Instant)                       // the clock as it was read before the statement ran
    | Arrive(id: CallbackId, body: Body)
    | SpendStep(id: CallbackId, asOf: Instant)
    | SpendLands(id: CallbackId)
    | ConnectStep(id: CallbackId, asOf: Instant)
    | ConnectLands(id: CallbackId, asOf: Instant)
    | GiveUp(id: CallbackId)                     // a throw, or the process dying, with a statement out
    | Disconnect(accountId: string)

  const START := State(0, map[], map[], map[], map[], {}, [], [])

  predicate Complete(b: Body) { b.userId != "" && b.consumerKey != "" && b.consumerSecret != "" }

  predicate At(s: State, i: CallbackId) { i in s.callbacks }

  predicate Enabled(s: State, e: Event) {
    match e
    case Tick(to) => s.clock <= to
    case Begin(token, _, _, asOf) => token !in s.begun && token !in s.used && asOf <= s.clock
    case Sweep(asOf) => asOf <= s.clock
    case Arrive(i, _) => !At(s, i)
    case SpendStep(i, asOf) => At(s, i) && s.callbacks[i].Spending? && asOf <= s.clock
    case SpendLands(i) => At(s, i) && s.callbacks[i].SpendAdrift?
    case ConnectStep(i, asOf) => At(s, i) && s.callbacks[i].Connecting? && asOf <= s.clock
    case ConnectLands(i, asOf) => At(s, i) && s.callbacks[i].ConnectAdrift? && asOf <= s.clock
    case GiveUp(i) => At(s, i) && (s.callbacks[i].Spending? || s.callbacks[i].Connecting?)
    case Disconnect(_) => true
  }

  function GrantOf(e: Event): Grant
    requires e.Begin?
  {
    Grant(e.token, e.accountId, e.shopUrl, e.asOf, e.asOf + GRANT_MS)
  }

  /** A callback that was handed a grant and has not been seen to write. */
  predicate Connects(p: Phase) { p.Connecting? || p.ConnectAdrift? }

  function ConnectionOf(p: Phase, asOf: Instant): Connection
    requires Connects(p)
  {
    Connection(p.grant.accountId, p.grant.shopUrl, p.body.consumerKey, p.body.consumerSecret, p.body.permissions, asOf)
  }

  function Write(s: State, p: Phase, asOf: Instant): State
    requires Connects(p)
  {
    var c := ConnectionOf(p, asOf);
    s.(connections := s.connections[c.accountId := c], written := s.written + [(p.grant.token, c)])
  }

  function Apply(s: State, e: Event): State
    requires Enabled(s, e)
  {
    match e
    case Tick(to) => s.(clock := to)
    case Begin(token, _, _, _) =>
      var g := GrantOf(e);
      s.(held := s.held[token := g], begun := s.begun[token := g])
    case Sweep(asOf) => s.(held := AfterSweep(s.held, asOf))
    case Arrive(i, body) => s.(callbacks := s.callbacks[i := if Complete(body) then Spending(body) else Replied(400)])
    case SpendStep(i, asOf) =>
      var body := s.callbacks[i].body;
      var s' := s.(held := s.held - {body.userId}, used := s.used + {body.userId});
      (match SpendAnswer(s.held, body.userId, asOf)
       case None => s'.(callbacks := s.callbacks[i := Replied(401)])
       case Some(g) => s'.(callbacks := s.callbacks[i := Connecting(body, g)], spends := s.spends + [Spend(g, asOf)]))
    case SpendLands(i) =>
      var token := s.callbacks[i].body.userId;
      s.(held := s.held - {token}, used := s.used + {token}, callbacks := s.callbacks[i := Gone])
    case ConnectStep(i, asOf) => Write(s, s.callbacks[i], asOf).(callbacks := s.callbacks[i := Replied(200)])
    case ConnectLands(i, asOf) => Write(s, s.callbacks[i], asOf).(callbacks := s.callbacks[i := Gone])
    case GiveUp(i) =>
      s.(callbacks := s.callbacks[i := if s.callbacks[i].Spending? then SpendAdrift(s.callbacks[i].body)
                                      else ConnectAdrift(s.callbacks[i].body, s.callbacks[i].grant)])
    case Disconnect(a) => s.(connections := s.connections - {a})
  }

  ghost predicate Run(s: State, events: seq<Event>, t: State)
    decreases |events|
  {
    if events == [] then s == t
    else Enabled(s, events[0]) && Run(Apply(s, events[0]), events[1..], t)
  }

  // ---------------------------------------------------------------------------------------

  ghost predicate SpentOnce(s: State) {
    && (forall n :: 0 <= n < |s.spends| ==>
          var g := s.spends[n].grant;
          g.token in s.begun && s.begun[g.token] == g && g.token in s.used && s.spends[n].at < g.expiresAt)
    && (forall m, n :: 0 <= m < n < |s.spends| ==> s.spends[m].grant.token != s.spends[n].grant.token)
  }

  /** A token is held exactly while it is begun, unused and not old enough to be swept away. */
  ghost predicate HeldRight(s: State) {
    && (forall t :: t in s.held ==> t in s.begun && s.held[t] == s.begun[t] && t !in s.used)
    && (forall t :: t in s.begun && t !in s.used && s.clock <= s.begun[t].expiresAt ==> t in s.held)
    && (forall t :: t in s.begun ==> s.begun[t].token == t)
  }

  ghost predicate HasSpend(s: State, g: Grant) { exists n :: 0 <= n < |s.spends| && s.spends[n].grant == g }

  /** One callback to a grant, and the write it is about to make is the first from that grant. */
  ghost predicate CallbacksRight(s: State) {
    && (forall i :: i in s.callbacks && Connects(s.callbacks[i]) ==>
          HasSpend(s, s.callbacks[i].grant) && Unwritten(s, s.callbacks[i].grant.token))
    && (forall i, j :: i in s.callbacks && j in s.callbacks && i != j && Connects(s.callbacks[i]) && Connects(s.callbacks[j]) ==>
          s.callbacks[i].grant.token != s.callbacks[j].grant.token)
  }

  ghost predicate WritesRight(s: State) {
    && (forall n :: 0 <= n < |s.written| ==> Wrote(s, s.written[n]))
    && (forall m, n :: 0 <= m < n < |s.written| ==> s.written[m].0 != s.written[n].0)
  }

  ghost predicate Unwritten(s: State, t: Token) { forall n :: 0 <= n < |s.written| ==> s.written[n].0 != t }

  ghost predicate Wrote(s: State, w: (Token, Connection)) {
    && w.0 in s.begun && w.1.accountId == s.begun[w.0].accountId && w.1.shopUrl == s.begun[w.0].shopUrl
    && HasSpend(s, s.begun[w.0])
  }

  ghost predicate IsWritten(s: State, c: Connection) { exists n :: 0 <= n < |s.written| && s.written[n].1 == c }

  ghost predicate ConnectionsWritten(s: State) {
    forall a :: a in s.connections ==> s.connections[a].accountId == a && IsWritten(s, s.connections[a])
  }

  ghost predicate Inv(s: State) {
    SpentOnce(s) && HeldRight(s) && CallbacksRight(s) && WritesRight(s) && ConnectionsWritten(s)
  }

  lemma StepKeepsHeld(s: State, e: Event)
    requires HeldRight(s) && Enabled(s, e)
    ensures HeldRight(Apply(s, e))
  {
  }

  lemma StepKeepsSpends(s: State, e: Event)
    requires SpentOnce(s) && HeldRight(s) && Enabled(s, e)
    ensures SpentOnce(Apply(s, e))
    ensures forall g :: HasSpend(s, g) ==> HasSpend(Apply(s, e), g)
  {
    var t := Apply(s, e);
    assert |s.spends| <= |t.spends| && forall n :: 0 <= n < |s.spends| ==> t.spends[n] == s.spends[n];
  }

  predicate Writes(e: Event) { e.ConnectStep? || e.ConnectLands? }

  /** What one event may do to the callbacks and to what they write. */
  ghost predicate Frame(s: State, e: Event, t: State) {
    && (forall k :: k in s.begun ==> k in t.begun && t.begun[k] == s.begun[k])
    && (forall g :: HasSpend(s, g) ==> HasSpend(t, g))
    && (forall i :: i in t.callbacks && Connects(t.callbacks[i]) ==>
          || (i in s.callbacks && Connects(s.callbacks[i]) && s.callbacks[i].grant == t.callbacks[i].grant && (Writes(e) ==> i != e.id))
          || (e.SpendStep? && e.id == i && NewlySpent(s, t, t.callbacks[i].grant)))
    && if Writes(e) then
         && e.id in s.callbacks && Connects(s.callbacks[e.id])
         && t.written == s.written + [(s.callbacks[e.id].grant.token, ConnectionOf(s.callbacks[e.id], e.asOf))]
         && t.connections == s.connections[s.callbacks[e.id].grant.accountId := ConnectionOf(s.callbacks[e.id], e.asOf)]
       else
         t.written == s.written && forall a :: a in t.connections ==> a in s.connections && s.connections[a] == t.connections[a]
  }

  ghost predicate NewlySpent(s: State, t: State, g: Grant) { g.token !in s.used && HasSpend(t, g) }

  lemma SpendFrame(s: State, e: Event)
    requires HeldRight(s) && SpentOnce(s) && Enabled(s, e) && e.SpendStep?
    ensures Frame(s, e, Apply(s, e))
  {
    StepKeepsSpends(s, e);
    var t := Apply(s, e);
    if Connects(t.callbacks[e.id]) {
      assert t.spends[|s.spends|].grant == t.callbacks[e.id].grant;
    }
  }

  lemma WriteFrame(s: State, e: Event)
    requires Enabled(s, e) && Writes(e)
    ensures Frame(s, e, Apply(s, e))
  {
    assert Apply(s, e).spends == s.spends;
  }

  lemma StepFrame(s: State, e: Event)
    requires HeldRight(s) && SpentOnce(s) && Enabled(s, e)
    ensures Frame(s, e, Apply(s, e))
  {
    if e.SpendStep? {
      SpendFrame(s, e);
    } else if Writes(e) {
      WriteFrame(s, e);
    } else {
      assert Apply(s, e).spends == s.spends;
    }
  }

  lemma StepKeepsWrites(s: State, e: Event, t: State)
    requires Inv(s) && Frame(s, e, t)
    ensures WritesRight(t)
  {
    if Writes(e) {
      assert HasSpend(s, s.callbacks[e.id].grant) && Unwritten(s, s.callbacks[e.id].grant.token);
    }
    forall n | 0 <= n < |s.written| ensures Wrote(t, s.written[n]) { assert Wrote(s, s.written[n]); }
  }

  /** The grant a callback is newly handed has been handed to no other, and nothing was written
      from it. */
  lemma NewSpendIsNobodys(s: State, t: State, g: Grant)
    requires Inv(s) && NewlySpent(s, t, g)
    ensures Unwritten(s, g.token)
    ensures forall i :: i in s.callbacks && Connects(s.callbacks[i]) ==> s.callbacks[i].grant.token != g.token
  {
    forall n | 0 <= n < |s.written| ensures s.written[n].0 != g.token {
      assert Wrote(s, s.written[n]);
    }
    forall i | i in s.callbacks && Connects(s.callbacks[i]) ensures s.callbacks[i].grant.token != g.token {
      assert HasSpend(s, s.callbacks[i].grant);
    }
  }

  lemma StepKeepsCallbacks(s: State, e: Event, t: State)
    requires Inv(s) && Frame(s, e, t)
    ensures CallbacksRight(t)
  {
    forall i | i in t.callbacks && Connects(t.callbacks[i])
      ensures HasSpend(t, t.callbacks[i].grant) && Unwritten(t, t.callbacks[i].grant.token)
    {
      var g := t.callbacks[i].grant;
      if NewlySpent(s, t, g) { NewSpendIsNobodys(s, t, g); } else { assert Unwritten(s, g.token); }
    }
    forall i, j | i in t.callbacks && j in t.callbacks && i != j && Connects(t.callbacks[i]) && Connects(t.callbacks[j])
      ensures t.callbacks[i].grant.token != t.callbacks[j].grant.token
    {
      if NewlySpent(s, t, t.callbacks[i].grant) { NewSpendIsNobodys(s, t, t.callbacks[i].grant); }
      if NewlySpent(s, t, t.callbacks[j].grant) { NewSpendIsNobodys(s, t, t.callbacks[j].grant); }
    }
  }

  lemma StepKeepsConnections(s: State, e: Event, t: State)
    requires Inv(s) && Frame(s, e, t)
    ensures ConnectionsWritten(t)
  {
    forall d | IsWritten(s, d) ensures IsWritten(t, d) {
      var n :| 0 <= n < |s.written| && s.written[n].1 == d;
      assert t.written[n].1 == d;
    }
    if Writes(e) { assert t.written[|s.written|].1 == ConnectionOf(s.callbacks[e.id], e.asOf); }
  }

  lemma StepKeepsInv(s: State, e: Event)
    requires Inv(s) && Enabled(s, e)
    ensures Inv(Apply(s, e))
  {
    StepKeepsHeld(s, e);
    StepKeepsSpends(s, e);
    StepFrame(s, e);
    StepKeepsWrites(s, e, Apply(s, e));
    StepKeepsCallbacks(s, e, Apply(s, e));
    StepKeepsConnections(s, e, Apply(s, e));
  }

  lemma {:induction false} RunKeepsInv(s: State, events: seq<Event>, t: State)
    requires Inv(s) && Run(s, events, t)
    ensures Inv(t)
    decreases |events|
  {
    if events != [] {
      StepKeepsInv(s, events[0]);
      RunKeepsInv(Apply(s, events[0]), events[1..], t);
    }
  }

  /** Over every run: a token is spent at most once, on the grant it was begun for, and before
      that grant's expiry. */
  lemma TokensAreSpentOnce(events: seq<Event>, t: State)
    requires Run(START, events, t)
    ensures forall n :: 0 <= n < |t.spends| ==>
              t.spends[n].grant.token in t.begun && t.begun[t.spends[n].grant.token] == t.spends[n].grant
    ensures forall n :: 0 <= n < |t.spends| ==> t.spends[n].at < t.spends[n].grant.expiresAt
    ensures forall m, n :: 0 <= m < n < |t.spends| ==> t.spends[m].grant.token != t.spends[n].grant.token
  {
    RunKeepsInv(START, events, t);
  }

  /** A spend right now succeeds exactly on a token that was begun, that no callback has used,
      and whose fifteen minutes are not up: no sweep ever takes a live grant, at any moment. */
  lemma TokenWorksExactlyWhile(events: seq<Event>, t: State, token: Token)
    requires Run(START, events, t)
    ensures SpendAnswer(t.held, token, t.clock).Some? <==>
              token in t.begun && token !in t.used && t.clock < t.begun[token].expiresAt
    ensures SpendAnswer(t.held, token, t.clock).Some? ==> SpendAnswer(t.held, token, t.clock).value == t.begun[token]
  {
    RunKeepsInv(START, events, t);
  }

  /** Everything on the connections table was written by a callback, each from a grant of its
      own that was begun and spent, with that grant's account and shop and nothing of the
      caller's choosing in their place. */
  lemma ConnectionsCarryTheirGrants(events: seq<Event>, t: State)
    requires Run(START, events, t)
    ensures forall n :: 0 <= n < |t.written| ==> Wrote(t, t.written[n])
    ensures forall m, n :: 0 <= m < n < |t.written| ==> t.written[m].0 != t.written[n].0
    ensures forall a :: a in t.connections ==> t.connections[a].accountId == a && IsWritten(t, t.connections[a])
  {
    RunKeepsInv(START, events, t);
  }

  // ---------------------------------------------------------------------------------------
  // The callback itself, from the first line to the last with nobody in between.

  lemma {:induction false} Then(start: State, events: seq<Event>, s: State, e: Event) returns (more: seq<Event>, t: State)
    requires Run(start, events, s) && Enabled(s, e)
    ensures more == events + [e] && t == Apply(s, e) && Run(start, more, t)
    decreases |events|
  {
    more, t := events + [e], Apply(s, e);
    if events == [] {
      assert more == [e] && [e][1..] == [] && Run(t, [], t);
    } else {
      var rest, u := Then(Apply(start, events[0]), events[1..], s, e);
      assert more[1..] == rest;
    }
  }

  /** One callback on the memory store is a run of the machine above: it replies what that run
      replies and leaves the grants and the connections it leaves. It connects a shop exactly
      where all three fields are there and the token is still good, and only the one the grant
      was begun for. */
  method PostCallback(shops: MemoryWooShops, body: Body, spentAt: Instant, connectedAt: Instant, ghost s: State, ghost id: CallbackId)
    returns (status: int, ghost events: seq<Event>, ghost t: State)
    requires shops.Valid() && shops.Held() == s.held && shops.shops == s.connections
    requires id !in s.callbacks && s.clock <= spentAt <= connectedAt
    modifies shops`grants, shops`shops
    ensures Run(s, events, t) && id in t.callbacks && t.callbacks[id] == Replied(status)
    ensures shops.Valid() && shops.Held() == t.held && shops.shops == t.connections
    ensures var good := SpendAnswer(old(shops.Held()), body.userId, spentAt);
            && status == (if !Complete(body) then 400 else if good.None? then 401 else 200)
            && shops.Held() == (if Complete(body) then old(shops.Held()) - {body.userId} else old(shops.Held()))
            && shops.shops == if status != 200 then old(shops.shops) else
                 old(shops.shops)[good.value.accountId :=
                   Connection(good.value.accountId, good.value.shopUrl, body.consumerKey, body.consumerSecret, body.permissions, connectedAt)]
  {
    events, t := Then(s, [], s, Arrive(id, body));
    if body.userId == "" || body.consumerKey == "" || body.consumerSecret == "" {
      return 400, events, t;
    }
    events, t := Then(s, events, t, Tick(spentAt));
    var grant := shops.SpendGrant(body.userId, spentAt);
    events, t := Then(s, events, t, SpendStep(id, spentAt));
    if grant.None? {
      return 401, events, t;
    }
    events, t := Then(s, events, t, Tick(connectedAt));
    shops.Connect(Connection(grant.value.accountId, grant.value.shopUrl, body.consumerKey, body.consumerSecret, body.permissions, connectedAt));
    events, t := Then(s, events, t, ConnectStep(id, connectedAt));
    status := 200;
  }
}

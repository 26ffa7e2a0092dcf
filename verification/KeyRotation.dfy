/** Merchant-key rotation at sign-in: `replaceTheKeyOf` over `replaceMerchantKey`.

    Any number of sign-ins, over any number of accounts, interleave. One event is the
    code between two awaits, or the moment a call that was sent takes effect on the other
    side. A call whose caller gave up (a timeout, a throw, a crash) is `Adrift`: it may
    still land at any later moment, or never. A write that threw is answered `false`, and
    the sign-in goes on to forget its fresh key; that write, too, may still land. */
module KeyRotation {
  import opened Basics

  type Account = string
  type Key = nat
  type SignInId = nat

  datatype Phase =
    | Issuing(holding: Key)                    // the issue call is out, made with `holding`
    | Writing(holding: Key, made: Key)        // a fresh key is in hand, the conditional write is out
    | Forgetting(key: Key, stray: Option<Key>)   // the forget call is out, made with `key`
    | IssueAdrift(holding: Key)
    | WriteAdrift(holding: Key, made: Key)
    | ForgetAdrift(key: Key, stray: Option<Key>)
    | Forgotten(key: Key, stray: Option<Key>)
    | Gone

  // `stray` is the key that a write which answered `false` expects on the row, where that
  // write, of `key`, may still land.

  datatype SignIn = SignIn(account: Account, phase: Phase)

  /** `live` is what the gateway accepts, `minted` every key it ever made, `leavings` the
      live keys nothing will come back for. */
  datatype State = State(
    live: set<Key>,
    minted: set<Key>,
    rows: map<Account, Key>,
    signIns: map<SignInId, SignIn>,
    leavings: set<Key>)

  datatype Event =
    | Arrive(id: SignInId, account: Account)   // reads the row, sends the issue call
    | IssueAnswered(id: SignInId, made: Key)
    | IssueRefused(id: SignInId)               // answered no: no key was made
    | IssueGivenUp(id: SignInId)
    | IssueLands(id: SignInId, made: Key)     // an issue call nobody waits for makes a key
    | WriteMoved(id: SignInId)                 // the row still held what was read
    | WriteMissed(id: SignInId)                // the row had moved on
    | WriteThrew(id: SignInId)                 // threw with nothing committed, so it answers `false`
    | WriteLied(id: SignInId)                  // committed and then threw, so it answers `false`
    | StrayLands(id: SignInId)                 // threw, answered `false`, and commits after all
    | WriteGivenUp(id: SignInId)               // the process died with the write out
    | WriteLands(id: SignInId)                 // that write commits after all
    | ForgetDone(id: SignInId)
    | ForgetRefused(id: SignInId)              // answered no: the key is still live
    | ForgetGivenUp(id: SignInId)
    | ForgetLands(id: SignInId)

  predicate HasStray(p: Phase) { (p.Forgetting? || p.ForgetAdrift? || p.Forgotten?) && p.stray.Some? }

  /** Where the program counter has to be for an event. */
  predicate Fits(p: Phase, e: Event) {
    match e
    case Arrive(_, _) => false
    case IssueAnswered(_, _) => p.Issuing?
    case IssueRefused(_) => p.Issuing?
    case IssueGivenUp(_) => p.Issuing?
    case IssueLands(_, _) => p.IssueAdrift?
    case WriteMoved(_) => p.Writing?
    case WriteMissed(_) => p.Writing?
    case WriteThrew(_) => p.Writing?
    case WriteLied(_) => p.Writing?
    case StrayLands(_) => HasStray(p)
    case WriteGivenUp(_) => p.Writing?
    case WriteLands(_) => p.WriteAdrift?
    case ForgetDone(_) => p.Forgetting?
    case ForgetRefused(_) => p.Forgetting?
    case ForgetGivenUp(_) => p.Forgetting?
    case ForgetLands(_) => p.ForgetAdrift?
  }

  /** Where an event leaves the program counter. */
  function After(p: Phase, e: Event): Phase
    requires Fits(p, e)
  {
    match e
    case IssueAnswered(_, f) => Writing(p.holding, f)
    case IssueGivenUp(_) => IssueAdrift(p.holding)
    case WriteMoved(_) => Forgetting(p.holding, None)
    case WriteMissed(_) => Forgetting(p.made, None)
    case WriteThrew(_) => Forgetting(p.made, Some(p.holding))
    case WriteLied(_) => Forgetting(p.made, None)
    case StrayLands(_) => p.(stray := None)
    case WriteGivenUp(_) => WriteAdrift(p.holding, p.made)
    case ForgetDone(_) => Forgotten(p.key, p.stray)
    case ForgetRefused(_) => if p.stray.Some? then WriteAdrift(p.stray.value, p.key) else Gone
    case ForgetGivenUp(_) => ForgetAdrift(p.key, p.stray)
    case ForgetLands(_) => Forgotten(p.key, p.stray)
    case _ => Gone
  }

  predicate Mints(e: Event) { e.IssueAnswered? || e.IssueLands? }
  predicate MovesRow(e: Event) { e.WriteMoved? || e.WriteLied? || e.WriteLands? || e.StrayLands? }

  /** The row is moved by a write that has answered, or is about to answer, `false`. */
  predicate Lies(e: Event) { e.WriteLied? || e.StrayLands? }

  /** The key a write expects on the row, and the key it puts there. */
  function Expected(p: Phase): Key
    requires p.Issuing? || p.Writing? || p.IssueAdrift? || p.WriteAdrift? || HasStray(p)
  {
    if HasStray(p) then p.stray.value else p.holding
  }

  function Written(p: Phase): Key
    requires p.Writing? || p.WriteAdrift? || HasStray(p)
  {
    if HasStray(p) then p.key else p.made
  }
  predicate Removes(e: Event) { e.ForgetDone? || e.ForgetLands? }

  /** The conditional write's condition: the row still holds what this sign-in read off it. */
  predicate RowHolds(s: State, account: Account, holding: Key) {
    account in s.rows && s.rows[account] == holding
  }

  /** What the gateway, the row and the program counter allow next. */
  predicate Enabled(s: State, e: Event) {
    if e.Arrive? then e.id !in s.signIns && e.account in s.rows
    else
      && e.id in s.signIns
      && var p := s.signIns[e.id].phase;
      && Fits(p, e)
      && (Mints(e) ==> p.holding in s.live && e.made !in s.minted)
      && (MovesRow(e) ==> RowHolds(s, s.signIns[e.id].account, Expected(p)))
      && (e.WriteMissed? ==> !RowHolds(s, s.signIns[e.id].account, p.holding))
  }

  function Apply(s: State, e: Event): State
    requires Enabled(s, e)
  {
    if e.Arrive? then s.(signIns := s.signIns[e.id := SignIn(e.account, Issuing(s.rows[e.account]))])
    else
      var one := s.signIns[e.id];
      var p := one.phase;
      State(
        if Mints(e) then s.live + {e.made} else if Removes(e) then s.live - {p.key} else s.live,
        if Mints(e) then s.minted + {e.made} else s.minted,
        if MovesRow(e) then s.rows[one.account := Written(p)] else s.rows,
        s.signIns[e.id := one.(phase := After(p, e))],
        match e
        case IssueLands(_, f) => s.leavings + {f}
        case WriteGivenUp(_) => s.leavings + {p.made}
        case WriteLands(_) => s.leavings - {p.made} + {p.holding}
        case ForgetRefused(_) => s.leavings + {p.key}
        case ForgetGivenUp(_) => s.leavings + {p.key}
        case ForgetLands(_) => s.leavings - {p.key}
        case _ => s.leavings)
  }

  ghost predicate Run(s: State, events: seq<Event>, t: State)
    decreases |events|
  {
    if events == [] then s == t
    else Enabled(s, events[0]) && Run(Apply(s, events[0]), events[1..], t)
  }

  /** A first state: no sign-in yet, every row on a live key of its own. */
  ghost predicate Init(s: State) {
    && s.signIns == map[]
    && s.live <= s.minted
    && s.rows.Values <= s.live
    && (forall a, b :: a in s.rows && b in s.rows && s.rows[a] == s.rows[b] ==> a == b)
    && s.leavings == s.live - s.rows.Values
  }

  // ---------------------------------------------------------------------------------------
  // What every run keeps.

  /** The key a write that is out could still put on a row. */
  predicate MayWrite(p: Phase, k: Key) { (p.Writing? || p.WriteAdrift?) && p.made == k }

  ghost predicate OnRow(s: State, k: Key) { exists a :: a in s.rows && s.rows[a] == k }

  /** Every key somebody is responsible for has exactly one role, and is live. */
  ghost predicate Inv(s: State) {
    && s.live <= s.minted
    && s.leavings <= s.live
    && (forall a :: a in s.rows ==> s.rows[a] in s.live && s.rows[a] !in s.leavings)
    && (forall a, b :: a in s.rows && b in s.rows && s.rows[a] == s.rows[b] ==> a == b)
    && (forall i :: i in s.signIns ==> OwnsWell(s, i))
    && (forall i, j :: i in s.signIns && j in s.signIns && i != j ==> Apart(s.signIns[i].phase, s.signIns[j].phase))
  }

  /** The key a sign-in is answerable for, if it is at a point where it has one. */
  function Charge(p: Phase): set<Key> {
    match p
    case Writing(_, f) => {f}
    case WriteAdrift(_, f) => {f}
    case Forgetting(k, _) => {k}
    case ForgetAdrift(k, _) => {k}
    case _ => {}
  }

  predicate Apart(p: Phase, q: Phase) { Charge(p) !! Charge(q) }

  ghost predicate OwnsWell(s: State, i: SignInId)
    requires i in s.signIns
  {
    var p := s.signIns[i].phase;
    && s.signIns[i].account in s.rows
    && (forall k :: k in Charge(p) ==> k in s.live && !OnRow(s, k))
    && (p.Writing? || p.Forgetting? ==> Charge(p) !! s.leavings)
    && (p.WriteAdrift? || p.ForgetAdrift? ==> Charge(p) <= s.leavings)
    && (p.Forgotten? ==> p.key in s.minted && p.key !in s.live)
  }

  lemma StepKeepsRows(s: State, e: Event)
    requires Inv(s) && Enabled(s, e) && !Lies(e)
    ensures var t := Apply(s, e);
            && t.live <= t.minted
            && t.leavings <= t.live
            && t.rows.Keys == s.rows.Keys
            && (forall a :: a in t.rows ==> t.rows[a] in t.live && t.rows[a] !in t.leavings)
            && (forall a, b :: a in t.rows && b in t.rows && t.rows[a] == t.rows[b] ==> a == b)
  {
    assert e.id in s.signIns ==> OwnsWell(s, e.id);
  }

  /** The charge a sign-in comes to an event with. */
  function Mine(s: State, e: Event): set<Key> {
    if e.id in s.signIns then Charge(s.signIns[e.id].phase) else {}
  }

  /** All a step can touch: its own charge, a key on a row it moves, a key nobody had. */
  lemma Footprint(s: State, e: Event, k: Key)
    requires Enabled(s, e) && !Lies(e) && k in s.minted && k !in Mine(s, e) && !OnRow(s, k)
    ensures k in Apply(s, e).live <==> k in s.live
    ensures !OnRow(Apply(s, e), k)
    ensures k in Apply(s, e).leavings <==> k in s.leavings
    ensures k !in Charge(Apply(s, e).signIns[e.id].phase)
  {
    var t := Apply(s, e);
    forall a | a in t.rows ensures t.rows[a] != k { assert a in s.rows; }
    if MovesRow(e) { assert OnRow(s, s.signIns[e.id].phase.holding); }
  }

  lemma MintedKeyIsNobodys(s: State, e: Event)
    requires Inv(s) && Enabled(s, e) && Mints(e)
    ensures OwnsWell(Apply(s, e), e.id)
  {
    assert OwnsWell(s, e.id) && !OnRow(s, e.made);
  }

  lemma DisplacedKeyIsOffItsRow(s: State, e: Event)
    requires Inv(s) && Enabled(s, e) && (e.WriteMoved? || e.WriteLands?)
    ensures OwnsWell(Apply(s, e), e.id)
  {
    assert OwnsWell(s, e.id);
    var t, p := Apply(s, e), s.signIns[e.id].phase;
    forall a | a in t.rows ensures t.rows[a] != p.holding { assert p.made in Charge(p); }
  }

  lemma StepKeepsOwnCharge(s: State, e: Event)
    requires Inv(s) && Enabled(s, e) && !Lies(e)
    ensures OwnsWell(Apply(s, e), e.id)
  {
    if e.Arrive? { return; }
    if Mints(e) { MintedKeyIsNobodys(s, e); return; }
    if MovesRow(e) { DisplacedKeyIsOffItsRow(s, e); return; }
    assert OwnsWell(s, e.id);
    assert Charge(After(s.signIns[e.id].phase, e)) <= Charge(s.signIns[e.id].phase);
  }

  lemma StepKeepsOtherCharge(s: State, e: Event, j: SignInId)
    requires Inv(s) && Enabled(s, e) && !Lies(e)
    requires j in s.signIns && j != e.id
    ensures OwnsWell(Apply(s, e), j)
  {
    assert OwnsWell(s, j);
    forall k | k in Charge(s.signIns[j].phase)
      ensures k in Apply(s, e).live && !OnRow(Apply(s, e), k) && (k in Apply(s, e).leavings <==> k in s.leavings)
    {
      assert e.id in s.signIns ==> Apart(s.signIns[j].phase, s.signIns[e.id].phase);
      Footprint(s, e, k);
    }
  }

  lemma StepKeepsApart(s: State, e: Event, i: SignInId, j: SignInId)
    requires Inv(s) && Enabled(s, e) && !Lies(e)
    requires i in Apply(s, e).signIns && j in Apply(s, e).signIns && i != j
    decreases j == e.id
    ensures Apart(Apply(s, e).signIns[i].phase, Apply(s, e).signIns[j].phase)
  {
    if j == e.id {
      StepKeepsApart(s, e, j, i);
    } else if i != e.id {
      assert Apart(s.signIns[i].phase, s.signIns[j].phase);
    } else {
      assert OwnsWell(s, j);
      forall k | k in Charge(s.signIns[j].phase) ensures k !in Charge(Apply(s, e).signIns[i].phase) {
        assert i in s.signIns ==> Apart(s.signIns[i].phase, s.signIns[j].phase);
        Footprint(s, e, k);
      }
    }
  }

  lemma StepKeepsInv(s: State, e: Event)
    requires Inv(s) && Enabled(s, e) && !Lies(e)
    ensures Inv(Apply(s, e))
  {
    var t := Apply(s, e);
    StepKeepsRows(s, e);
    forall i | i in t.signIns ensures OwnsWell(t, i) {
      if i == e.id { StepKeepsOwnCharge(s, e); } else { StepKeepsOtherCharge(s, e, i); }
    }
    forall i, j | i in t.signIns && j in t.signIns && i != j ensures Apart(t.signIns[i].phase, t.signIns[j].phase) {
      StepKeepsApart(s, e, i, j);
    }
  }

  lemma InitHasInv(s: State)
    requires Init(s)
    ensures Inv(s)
  {
    forall a | a in s.rows ensures s.rows[a] in s.live { assert s.rows[a] in s.rows.Values; }
  }

  ghost predicate Honest(events: seq<Event>) { forall n :: 0 <= n < |events| ==> !Lies(events[n]) }

  lemma {:induction false} RunKeepsInv(s: State, events: seq<Event>, t: State)
    requires Inv(s) && Run(s, events, t) && Honest(events)
    ensures Inv(t)
    ensures t.rows.Keys == s.rows.Keys
    decreases |events|
  {
    if events != [] {
      StepKeepsInv(s, events[0]);
      StepKeepsRows(s, events[0]);
      RunKeepsInv(Apply(s, events[0]), events[1..], t);
    }
  }

  /** The claim of `replaceTheKeyOf`: however sign-ins interleave, crash or are refused, every
      account keeps its row, every row names a key the gateway takes, and no key a forget call
      was ever sent with, and which is still to land, is on a row or held by a pending write.
      Where the write answered at all, no write that threw can bring the key back either. */
  lemma RowsAlwaysNameLiveKeys(s: State, events: seq<Event>, t: State)
    requires Init(s) && Run(s, events, t) && Honest(events)
    ensures t.rows.Keys == s.rows.Keys
    ensures forall a :: a in t.rows ==> t.rows[a] in t.live
    ensures forall a, b :: a in t.rows && b in t.rows && a != b ==> t.rows[a] != t.rows[b]
    ensures forall i :: i in t.signIns ==> PutAway(t, t.signIns[i].phase)
  {
    InitHasInv(s);
    RunKeepsInv(s, events, t);
    forall i | i in t.signIns ensures PutAway(t, t.signIns[i].phase) { ForgottenIsRetired(t, i); }
  }

  /** A key whose forget call is out: off every row and every write that could put it on one,
      and where the write before it answered, off every write that threw as well. */
  ghost predicate PutAway(s: State, p: Phase) {
    p.Forgetting? || p.ForgetAdrift? ==> Retired(s, p.key) && (p.stray.None? ==> NoStray(s, p.key))
  }

  lemma ForgottenIsRetired(t: State, i: SignInId)
    requires Inv(t) && i in t.signIns
    ensures PutAway(t, t.signIns[i].phase)
  {
    var p := t.signIns[i].phase;
    if p.Forgetting? || p.ForgetAdrift? {
      assert OwnsWell(t, i) && p.key in Charge(p);
      forall j | j in t.signIns && j != i
        ensures !MayWrite(t.signIns[j].phase, p.key) && (HasStray(t.signIns[j].phase) ==> t.signIns[j].phase.key != p.key)
      {
        assert Apart(p, t.signIns[j].phase) && OwnsWell(t, j);
      }
    }
  }

  /** On no row, and in no write that still waits for its answer or was given up. */
  ghost predicate Retired(s: State, k: Key) {
    && k in s.minted
    && !OnRow(s, k)
    && forall j :: j in s.signIns ==> !MayWrite(s.signIns[j].phase, k)
  }

  /** No write of it that answered `false` may still land. */
  ghost predicate NoStray(s: State, k: Key) {
    forall j :: j in s.signIns && HasStray(s.signIns[j].phase) ==> s.signIns[j].phase.key != k
  }

  lemma StepKeepsRetired(s: State, e: Event, k: Key)
    requires Retired(s, k) && NoStray(s, k) && Enabled(s, e)
    ensures Retired(Apply(s, e), k) && NoStray(Apply(s, e), k)
    ensures k !in s.live ==> k !in Apply(s, e).live
  {
    var t := Apply(s, e);
    forall a | a in t.rows ensures t.rows[a] != k {
      assert MovesRow(e) ==> !MayWrite(s.signIns[e.id].phase, k);
    }
  }

  /** A retired key that no stray write carries never gets back onto a row, and once dead stays
      dead, in every run, honest or not. */
  lemma {:induction false} RetiredForGood(s: State, events: seq<Event>, t: State, k: Key)
    requires Retired(s, k) && NoStray(s, k) && Run(s, events, t)
    ensures Retired(t, k) && NoStray(t, k)
    ensures k !in s.live ==> k !in t.live
    decreases |events|
  {
    if events != [] {
      StepKeepsRetired(s, events[0], k);
      RetiredForGood(Apply(s, events[0]), events[1..], t, k);
    }
  }

  // ---------------------------------------------------------------------------------------
  // Where every live key is.

  ghost predicate InCharge(s: State, k: Key) { exists i :: i in s.signIns && k in Charge(s.signIns[i].phase) }

  /** Every live key is on a row, answered for by a sign-in, or a leaving. */
  ghost predicate Accounted(s: State) {
    forall k :: k in s.live ==> OnRow(s, k) || k in s.leavings || InCharge(s, k)
  }

  lemma StepKeepsAccounted(s: State, e: Event)
    requires Inv(s) && Accounted(s) && Enabled(s, e) && !Lies(e)
    ensures Accounted(Apply(s, e))
  {
    var t := Apply(s, e);
    forall k | k in t.live ensures OnRow(t, k) || k in t.leavings || InCharge(t, k) {
      if k in Charge(t.signIns[e.id].phase) {
        assert InCharge(t, k);
      } else if k in s.live && InCharge(s, k) && k !in Mine(s, e) {
        var i :| i in s.signIns && k in Charge(s.signIns[i].phase);
        assert i != e.id && t.signIns[i] == s.signIns[i];
      } else {
        AccountedHere(s, e, k);
      }
    }
  }

  lemma AccountedHere(s: State, e: Event, k: Key)
    requires Inv(s) && Accounted(s) && Enabled(s, e) && !Lies(e)
    requires k in Apply(s, e).live && k !in Charge(Apply(s, e).signIns[e.id].phase)
    requires k in s.live && InCharge(s, k) ==> k in Mine(s, e)
    ensures OnRow(Apply(s, e), k) || k in Apply(s, e).leavings
  {
    var t := Apply(s, e);
    if MovesRow(e) {
      assert t.rows[s.signIns[e.id].account] == s.signIns[e.id].phase.made;
    }
    if OnRow(s, k) {
      var a :| a in s.rows && s.rows[a] == k;
      assert a in t.rows;
    }
  }

  /** A fault leaves one live key behind. */
  predicate Fault(e: Event) { e.IssueLands? || e.WriteGivenUp? || e.ForgetRefused? || e.ForgetGivenUp? }

  function Faulted(events: seq<Event>): set<SignInId> {
    if events == [] then {} else (if Fault(events[0]) then {events[0].id} else {}) + Faulted(events[1..])
  }

  lemma {:induction false} FaultedIsWho(events: seq<Event>)
    ensures forall n :: 0 <= n < |events| && Fault(events[n]) ==> events[n].id in Faulted(events)
    ensures forall i :: i in Faulted(events) ==> exists n :: 0 <= n < |events| && Fault(events[n]) && events[n].id == i
  {
    if events != [] {
      FaultedIsWho(events[1..]);
      forall i | i in Faulted(events) ensures exists n :: 0 <= n < |events| && Fault(events[n]) && events[n].id == i {
        if i in Faulted(events[1..]) {
          var n :| 0 <= n < |events[1..]| && Fault(events[1..][n]) && events[1..][n].id == i;
          assert events[n + 1] == events[1..][n];
        } else {
          assert Fault(events[0]) && events[0].id == i;
        }
      }
      forall n | 0 <= n < |events| && Fault(events[n]) ensures events[n].id in Faulted(events) {
        if n > 0 { assert events[n] == events[1..][n - 1]; }
      }
    }
  }

  predicate Settled(p: Phase) { p.Gone? || p.Forgotten? || p.WriteAdrift? || p.ForgetAdrift? }

  lemma {:induction false} SettledFaultsNoMore(s: State, events: seq<Event>, t: State, i: SignInId)
    requires Run(s, events, t) && i in s.signIns && Settled(s.signIns[i].phase)
    ensures i !in Faulted(events)
    decreases |events|
  {
    if events != [] {
      SettledFaultsNoMore(Apply(s, events[0]), events[1..], t, i);
    }
  }

  lemma StepLeavesNothing(s: State, e: Event)
    requires Enabled(s, e) && !Fault(e) && !e.WriteLands?
    ensures Apply(s, e).leavings <= s.leavings
  {
  }

  lemma StepLeavesOne(s: State, e: Event)
    requires Enabled(s, e) && Fault(e)
    ensures exists k :: Apply(s, e).leavings == s.leavings + {k}
    ensures Settled(Apply(s, e).signIns[e.id].phase)
  {
    var k := if e.IssueLands? then e.made else if e.WriteGivenUp? then s.signIns[e.id].phase.made
             else s.signIns[e.id].phase.key;
    assert Apply(s, e).leavings == s.leavings + {k};
  }

  lemma StepLeaves(s: State, e: Event)
    requires Inv(s) && Enabled(s, e)
    ensures |Apply(s, e).leavings| <= |s.leavings| + if Fault(e) then 1 else 0
  {
    if Fault(e) {
      StepLeavesOne(s, e);
    } else if e.WriteLands? {
      assert OwnsWell(s, e.id);
      var p := s.signIns[e.id].phase;
      assert p.made in Charge(p);
      assert |s.leavings - {p.made}| == |s.leavings| - 1;
    } else {
      StepLeavesNothing(s, e);
      SubsetSize(Apply(s, e).leavings, s.leavings);
    }
  }

  lemma {:induction false} RunAccounts(s: State, events: seq<Event>, t: State)
    requires Inv(s) && Accounted(s) && Run(s, events, t) && Honest(events)
    ensures Inv(t) && Accounted(t)
    ensures |t.leavings| <= |s.leavings| + |Faulted(events)|
    decreases |events|
  {
    if events != [] {
      var e := events[0];
      StepKeepsInv(s, e);
      StepKeepsAccounted(s, e);
      StepLeaves(s, e);
      RunAccounts(Apply(s, e), events[1..], t);
      if Fault(e) {
        StepLeavesOne(s, e);
        SettledFaultsNoMore(Apply(s, e), events[1..], t, e.id);
      }
    }
  }

  /** Conservation. In every honest run a live key is on a row, in the hands of a sign-in that
      is still answerable for it, or left behind, never two of these at once; and each
      interrupted sign-in leaves at most one. */
  lemma EveryLiveKeyIsAccountedFor(s: State, events: seq<Event>, t: State)
    requires Init(s) && Run(s, events, t) && Honest(events)
    ensures forall k :: k in t.live <==> OnRow(t, k) || k in t.leavings || InCharge(t, k)
    ensures forall k :: OnRow(t, k) ==> k !in t.leavings && !InCharge(t, k)
    ensures forall i, j :: i in t.signIns && j in t.signIns && i != j ==> Apart(t.signIns[i].phase, t.signIns[j].phase)
    ensures |t.leavings| <= |s.leavings| + |Faulted(events)|
    ensures forall i :: i in Faulted(events) <==> exists n :: 0 <= n < |events| && Fault(events[n]) && events[n].id == i
  {
    InitHasInv(s);
    FaultedIsWho(events);
    forall k | k in s.live && k !in s.leavings ensures OnRow(s, k) { assert k in s.rows.Values; }
    RunAccounts(s, events, t);
    forall k | InCharge(t, k) ensures k in t.live && !OnRow(t, k) {
      var i :| i in t.signIns && k in Charge(t.signIns[i].phase);
      assert OwnsWell(t, i);
    }
  }

  lemma {:induction false} FaultFreeLeavesNothing(s: State, events: seq<Event>, t: State)
    requires Inv(s) && Run(s, events, t) && Honest(events) && Faulted(events) == {}
    requires forall i :: i in s.signIns ==> !s.signIns[i].phase.WriteAdrift?
    ensures t.leavings <= s.leavings
    decreases |events|
  {
    if events != [] {
      StepKeepsInv(s, events[0]);
      StepLeavesNothing(s, events[0]);
      assert events[0].id !in Faulted(events);
      FaultFreeLeavesNothing(Apply(s, events[0]), events[1..], t);
    }
  }

  /** With no fault, once every sign-in is over the live keys are the row keys and what was
      already left behind, however many sign-ins raced. */
  lemma QuietGatewayHoldsTheRowKeys(s: State, events: seq<Event>, t: State)
    requires Init(s) && Run(s, events, t) && Honest(events) && Faulted(events) == {}
    requires forall i :: i in t.signIns ==> Over(t.signIns[i].phase)
    ensures t.live == t.rows.Values + t.leavings
    ensures t.leavings <= s.leavings
    ensures s.leavings == {} ==> t.live == t.rows.Values
  {
    EveryLiveKeyIsAccountedFor(s, events, t);
    InitHasInv(s);
    FaultFreeLeavesNothing(s, events, t);
    QuietState(t);
  }

  predicate Over(p: Phase) { p.Gone? || p.Forgotten? }

  lemma QuietState(t: State)
    requires forall k :: k in t.live <==> OnRow(t, k) || k in t.leavings || InCharge(t, k)
    requires forall i :: i in t.signIns ==> Over(t.signIns[i].phase)
    ensures t.live == t.rows.Values + t.leavings
  {
    forall k ensures k in t.live <==> k in t.rows.Values + t.leavings {
      assert !InCharge(t, k);
      assert OnRow(t, k) <==> k in t.rows.Values;
    }
  }

  // ---------------------------------------------------------------------------------------
  // Why `false` has to mean that the row did not change.

  /** Some honest run from here ends with a row naming a key the gateway does not take. */
  ghost predicate MayLockOut(s: State) {
    exists events, t :: Run(s, events, t) && Honest(events) && LockedOut(t)
  }

  ghost predicate LockedOut(s: State) { exists a :: a in s.rows && s.rows[a] !in s.live }

  /** What is left of the sign-in once a write that answers `false` has moved the row: it goes
      on to forget the key on the row, or has done so. */
  function TheForget(s: State, i: SignInId): seq<Event>
    requires i in s.signIns
  {
    match s.signIns[i].phase
    case Forgetting(_, _) => [ForgetDone(i)]
    case ForgetAdrift(_, _) => [ForgetLands(i)]
    case _ => []
  }

  lemma LyingWriteLocksOut(s: State, e: Event)
    requires Inv(s) && Enabled(s, e) && Lies(e)
    ensures MayLockOut(Apply(s, e))
  {
    assert OwnsWell(s, e.id);
    var mid, a := Apply(s, e), s.signIns[e.id].account;
    var rest := TheForget(mid, e.id);
    var t := if rest == [] then mid else Apply(mid, rest[0]);
    assert rest != [] ==> rest[1..] == [] && Run(t, [], t);
    assert Run(mid, rest, t) && Honest(rest);
    assert a in t.rows && t.rows[a] !in t.live;
  }

  /** Exactly when the claim holds. From a state every honest run keeps, a step opens the way to
      a lock-out if and only if it is a move of the row by a write that answers `false`, before
      that answer or after it. */
  lemma LockOutExactlyWhenAWriteLies(s: State, e: Event)
    requires Inv(s) && Enabled(s, e)
    ensures MayLockOut(Apply(s, e)) <==> Lies(e)
  {
    if Lies(e) {
      LyingWriteLocksOut(s, e);
    } else {
      StepKeepsInv(s, e);
      forall events, t | Run(Apply(s, e), events, t) && Honest(events) ensures !LockedOut(t) {
        RunKeepsInv(Apply(s, e), events, t);
      }
    }
  }

  /** A sign-in whose write threw and whose fresh key is forgotten, the write still out. */
  lemma StrayWrite(s: State, a: Account, i: SignInId, made: Key) returns (events: seq<Event>, t: State)
    requires Init(s) && a in s.rows && made !in s.minted
    ensures Run(s, events, t) && Honest(events) && |events| == 4
    ensures t.rows == s.rows && made !in t.live
    ensures i in t.signIns && t.signIns[i] == SignIn(a, Forgotten(made, Some(s.rows[a])))
  {
    assert s.rows[a] in s.rows.Values;
    var s1, s2, s3: State;
    events, s1 := Then(s, [], s, Arrive(i, a));
    events, s2 := Then(s, events, s1, IssueAnswered(i, made));
    events, s3 := Then(s, events, s2, WriteThrew(i));
    events, t := Then(s, events, s3, ForgetDone(i));
  }

  /** It happens from the start, for any account and any key the gateway might make: the write
      throws, is answered `false`, the fresh key is forgotten, and then the write commits. */
  lemma LockOutHappens(s: State, a: Account, i: SignInId, made: Key) returns (events: seq<Event>, t: State)
    requires Init(s) && a in s.rows && made !in s.minted
    ensures Run(s, events, t) && |events| == 5 && events[4] == StrayLands(i) && Honest(events[..4])
    ensures a in t.rows && t.rows[a] !in t.live
  {
    var honest, u := StrayWrite(s, a, i, made);
    events, t := Then(s, honest, u, StrayLands(i));
    assert events[..4] == honest;
  }

  lemma {:induction false} Then(start: State, events: seq<Event>, s: State, e: Event) returns (more: seq<Event>, t: State)
    requires Run(start, events, s) && Enabled(s, e)
    ensures more == events + [e] && t == Apply(s, e) && Run(start, more, t)
    decreases |events|
  {
    more, t := events + [e], Apply(s, e);
    if events == [] {
      assert more == [e] && [e][1..] == [] && Run(t, [], t);
    } else {
      var rest, u := Then(Apply(start, events[0]), events[1..], s, e);
      assert more[1..] == rest;
    }
  }

  // ---------------------------------------------------------------------------------------
  // `replaceTheKeyOf` itself, from the issue call on with nobody in between.

  datatype IssueReply = Made(key: Key) | NotMade | IssueThrew
  datatype WriteReply = Commits | ThrowsBefore | ThrowsAfter   // and each only where the row still matches
  datatype ForgetReply = Forgot | NotForgot | ForgetThrew

  class Gateway {
    var live: set<Key>
    var minted: set<Key>

    constructor (live: set<Key>, minted: set<Key>)
      ensures this.live == live && this.minted == minted
    {
      this.live, this.minted := live, minted;
    }

    /** A call that throws has made no key by the time its caller moves on. */
    method IssueCabinetKey(holding: Key, reply: IssueReply)
      requires reply.Made? ==> holding in live && reply.key !in minted
      modifies this
      ensures live == old(live) + if reply.Made? then {reply.key} else {}
      ensures minted == old(minted) + if reply.Made? then {reply.key} else {}
    {
      match reply {
        case Made(key) => live, minted := live + {key}, minted + {key};
        case _ =>
      }
    }

    method ForgetCabinetKey(key: Key, reply: ForgetReply)
      modifies this`live
      ensures live == if reply.Forgot? then old(live) - {key} else old(live)
    {
      if reply.Forgot? { live := live - {key}; }
    }
  }

  class AccountRows {
    var rows: map<Account, Key>

    constructor (rows: map<Account, Key>)
      ensures this.rows == rows
    {
      this.rows := rows;
    }

    /** True only where the row moved; but false also where it moved and the answer was lost. */
    method ReplaceMerchantKey(account: Account, expected: Key, made: Key, reply: WriteReply) returns (moved: bool)
      modifies this
      ensures var matched := account in old(rows) && old(rows)[account] == expected;
              && rows == (if matched && !reply.ThrowsBefore? then old(rows)[account := made] else old(rows))
              && moved == (matched && reply.Commits?)
    {
      moved := false;
      if !reply.ThrowsBefore? && account in rows && rows[account] == expected {
        rows := rows[account := made];
        moved := reply.Commits?;
      }
    }
  }

  /** One sign-in, from whatever the row has come to since it was read, is a run of the machine
      above and leaves the gateway and the rows that run leaves. Unless the write lied, the row
      names a live key. Whatever each call answers: the row moves only off the key that was held
      and only to the new one, and the key that goes, where one does, is the old one if the row
      is known to have moved and else the new one. */
  method ReplaceTheKeyOf(gateway: Gateway, identity: AccountRows, account: Account, holding: Key,
                         issue: IssueReply, write: WriteReply, forget: ForgetReply, ghost s: State, ghost id: SignInId)
    returns (ghost events: seq<Event>, ghost t: State)
    requires gateway.live == s.live && gateway.minted == s.minted && identity.rows == s.rows
    requires Inv(s) && id in s.signIns && s.signIns[id] == SignIn(account, Issuing(holding))
    requires issue.Made? ==> holding in gateway.live && issue.key !in gateway.minted
    modifies gateway, identity
    ensures Run(s, events, t) && forall n :: 0 <= n < |events| ==> events[n].id == id
    ensures gateway.live == t.live && gateway.minted == t.minted && identity.rows == t.rows
    ensures Honest(events) <==> !(issue.Made? && write.ThrowsAfter? && old(identity.rows)[account] == holding)
    ensures Honest(events) ==> account in identity.rows && identity.rows[account] in gateway.live
    ensures var matched := account in old(identity.rows) && old(identity.rows)[account] == holding;
            if !issue.Made? then
              identity.rows == old(identity.rows) && gateway.live == old(gateway.live) && gateway.minted == old(gateway.minted)
            else
              && identity.rows == (if matched && !write.ThrowsBefore? then old(identity.rows)[account := issue.key] else old(identity.rows))
              && gateway.minted == old(gateway.minted) + {issue.key}
              && gateway.live == old(gateway.live) + {issue.key}
                                 - if !forget.Forgot? then {} else if matched && write.Commits? then {holding} else {issue.key}
  {
    assert OwnsWell(s, id);
    gateway.IssueCabinetKey(holding, issue);
    match issue {
      case IssueThrew =>
        events, t := Then(s, [], s, IssueGivenUp(id));
      case NotMade =>
        events, t := Then(s, [], s, IssueRefused(id));
      case Made(made) =>
        var moved := identity.ReplaceMerchantKey(account, holding, made, write);
        var unused := if moved then holding else made;
        gateway.ForgetCabinetKey(unused, forget);
        events, t := SignInRun(s, id, made, write, forget);
    }
    HonestRowIsLive(s, events, t, account);
  }

  lemma HonestRowIsLive(s: State, events: seq<Event>, t: State, account: Account)
    requires Inv(s) && Run(s, events, t) && account in s.rows
    ensures Honest(events) ==> account in t.rows && t.rows[account] in t.live
  {
    if Honest(events) { RunKeepsInv(s, events, t); }
  }

  function WriteEvent(s: State, id: SignInId, write: WriteReply): Event
    requires id in s.signIns && s.signIns[id].phase.Issuing?
  {
    if !RowHolds(s, s.signIns[id].account, s.signIns[id].phase.holding) then
      (if write.Commits? then WriteMissed(id) else WriteThrew(id))
    else match write
      case Commits => WriteMoved(id)
      case ThrowsBefore => WriteThrew(id)
      case ThrowsAfter => WriteLied(id)
  }

  function ForgetEvent(id: SignInId, forget: ForgetReply): Event {
    match forget
    case Forgot => ForgetDone(id)
    case NotForgot => ForgetRefused(id)
    case ForgetThrew => ForgetGivenUp(id)
  }

  /** The three calls of a sign-in that is made a key, as events. */
  lemma SignInRun(s: State, id: SignInId, made: Key, write: WriteReply, forget: ForgetReply) returns (events: seq<Event>, t: State)
    requires id in s.signIns && s.signIns[id].phase.Issuing? && Enabled(s, IssueAnswered(id, made))
    ensures Run(s, events, t) && forall n :: 0 <= n < |events| ==> events[n].id == id
    ensures Honest(events) <==> !(RowHolds(s, s.signIns[id].account, s.signIns[id].phase.holding) && write.ThrowsAfter?)
    ensures var one := s.signIns[id];
            var matched := RowHolds(s, one.account, one.phase.holding);
            var unused := if matched && write.Commits? then one.phase.holding else made;
            && t.rows == (if matched && !write.ThrowsBefore? then s.rows[one.account := made] else s.rows)
            && t.minted == s.minted + {made}
            && t.live == if forget.Forgot? then s.live + {made} - {unused} else s.live + {made}
  {
    var s1, s2: State;
    events, s1 := Then(s, [], s, IssueAnswered(id, made));
    events, s2 := Then(s, events, s1, WriteEvent(s, id, write));
    events, t := Then(s, events, s2, ForgetEvent(id, forget));
    assert events == [IssueAnswered(id, made), WriteEvent(s, id, write), ForgetEvent(id, forget)];
    assert events[1] == WriteEvent(s, id, write);
  }
}

/** Filling orders from a connected shop: deliveries come at least once, attempts interleave
    and crash, and the shop must still be written to once per sale.

    One event is the code between two awaits, one database statement, or the moment a call
    that was sent takes effect. A call whose caller is gone is `Adrift` and may still land.
    Nothing reads the shop, so an order the shop creates after it has answered is modelled as
    created before: `created` at an answer is what the call did or was still to do. */
module WooWorker {
  import opened Basics
  import opened WooShops
  import opened WooShop

  type AttemptId = nat

  datatype Reply = Delivered(orderNumber: string) | Refusal | Silent

  datatype Phase =
    | Drawn                              // the order is in hand, the claim not yet made
    | Selecting                          // a Postgres claim between its two statements
    | Calling(created: Option<Placed>)   // the claim is this attempt's, the POST is out
    | Recording(placed: Placed)
    | Releasing
    | ClaimAdrift
    | CallAdrift(created: Option<Placed>)
    | RecordAdrift(placed: Placed)
    | ReleaseAdrift
    | Replied(reply: Reply)
    | Dead

  datatype Attempt = Attempt(order: OrderId, account: string, product: ProductNumber, phase: Phase)

  /** `shop` is what the merchant's shop holds for each sale, in the order it was created. */
  datatype State = State(ledger: Ledger, shop: map<OrderId, seq<Placed>>, attempts: map<AttemptId, Attempt>)

  datatype Event =
    | Draw(id: AttemptId, order: OrderId, account: string, product: ProductNumber, mayWrite: bool)
    | ClaimStep(id: AttemptId, now: Instant)       // the whole claim in one step, as in memory
    | InsertStep(id: AttemptId, now: Instant)      // the first statement of a Postgres claim
    | SelectStep(id: AttemptId)                    // the second
    | NotAProduct(id: AttemptId)                   // the card is not keyed by a product: no call is made
    | ShopCreates(id: AttemptId, placed: Placed)   // the POST takes effect in the shop
    | ShopAnswers(id: AttemptId, answer: Answer)
    | RecordStep(id: AttemptId)
    | ReleaseStep(id: AttemptId)
    | Crash(id: AttemptId)                         // a throw or a crash, with a call out or not
    | ClaimLands(id: AttemptId, now: Instant)
    | RecordLands(id: AttemptId)
    | ReleaseLands(id: AttemptId)

  const EMPTY := State(map[], map[], map[])

  function OrdersIn(s: State, o: OrderId): seq<Placed> { if o in s.shop then s.shop[o] else [] }

  predicate Fits(a: Attempt, e: Event) {
    match e
    case Draw(_, _, _, _, _) => false
    case ClaimStep(_, _) => a.phase.Drawn?
    case InsertStep(_, _) => a.phase.Drawn?
    case SelectStep(_) => a.phase.Selecting?
    case NotAProduct(_) => a.phase == Calling(None) && !Orderable(a.product)
    case ShopCreates(_, _) => (a.phase == Calling(None) || a.phase == CallAdrift(None)) && Orderable(a.product)
    case ShopAnswers(_, _) => a.phase.Calling? && Orderable(a.product)
    case RecordStep(_) => a.phase.Recording?
    case ReleaseStep(_) => a.phase.Releasing?
    case Crash(_) => a.phase.Drawn? || a.phase.Selecting? || a.phase.Calling? || a.phase.Recording? || a.phase.Releasing?
    case ClaimLands(_, _) => a.phase.ClaimAdrift?
    case RecordLands(_) => a.phase.RecordAdrift?
    case ReleaseLands(_) => a.phase.ReleaseAdrift?
  }

  /** What `fillFromTheShop` does with the claim's answer. */
  function AfterAnswer(claim: Claim): Phase {
    match claim
    case Ours => Calling(None)
    case AlreadyPlaced(placed) => Replied(Delivered(placed.number))
    case Unknown(_) => Replied(Refusal)
  }

  /** And with the shop's. */
  function AfterShop(created: Option<Placed>, made: OrderMade): Phase {
    match made
    case Made(id, number) => Recording(Placed(id, number))
    case NotMade(again) => if again then CallAdrift(created) else Releasing
    case Thrown => CallAdrift(created)
  }

  function After(s: State, a: Attempt, e: Event): Phase
    requires Fits(a, e)
  {
    match e
    case ClaimStep(_, _) => AfterAnswer(ClaimAnswer(s.ledger, a.order))
    case InsertStep(_, _) => if a.order in s.ledger then Selecting else Calling(None)
    case SelectStep(_) => AfterAnswer(ClaimAnswer(s.ledger, a.order))
    case NotAProduct(_) => Releasing
    case ShopCreates(_, p) => a.phase.(created := Some(p))
    case ShopAnswers(_, answer) => AfterShop(a.phase.created, Classify(answer))
    case RecordStep(_) => Replied(Delivered(a.phase.placed.number))
    case ReleaseStep(_) => Replied(Refusal)
    case Crash(_) =>
      (match a.phase
       case Drawn => ClaimAdrift
       case Calling(created) => CallAdrift(created)
       case Recording(placed) => RecordAdrift(placed)
       case Releasing => ReleaseAdrift
       case _ => Dead)
    case _ => Dead
  }

  function LedgerAfter(ledger: Ledger, a: Attempt, e: Event): Ledger
    requires Fits(a, e)
  {
    match e
    case ClaimStep(_, now) => AfterClaim(ledger, a.account, a.order, now)
    case InsertStep(_, now) => AfterClaim(ledger, a.account, a.order, now)
    case ClaimLands(_, now) => AfterClaim(ledger, a.account, a.order, now)
    case RecordStep(_) => AfterRecord(ledger, a.order, a.phase.placed)
    case RecordLands(_) => AfterRecord(ledger, a.order, a.phase.placed)
    case ReleaseStep(_) => AfterRelease(ledger, a.order)
    case ReleaseLands(_) => AfterRelease(ledger, a.order)
    case _ => ledger
  }

  /** A sale is of one product, however often it is handed over. */
  predicate OneProduct(s: State, o: OrderId, product: ProductNumber) {
    forall i :: i in s.attempts && s.attempts[i].order == o ==> s.attempts[i].product == product
  }

  predicate Enabled(s: State, e: Event) {
    if e.Draw? then e.id !in s.attempts && OneProduct(s, e.order, e.product)
    else e.id in s.attempts && Fits(s.attempts[e.id], e)
  }

  function Apply(s: State, e: Event): State
    requires Enabled(s, e)
  {
    if e.Draw? then
      s.(attempts := s.attempts[e.id := Attempt(e.order, e.account, e.product, if e.mayWrite then Drawn else Replied(Refusal))])
    else
      var a := s.attempts[e.id];
      State(
        LedgerAfter(s.ledger, a, e),
        if e.ShopCreates? then s.shop[a.order := OrdersIn(s, a.order) + [e.placed]] else s.shop,
        s.attempts[e.id := a.(phase := After(s, a, e))])
  }

  // ---------------------------------------------------------------------------------------
  // What can go wrong.

  /** An answer that closes a sale the shop did create an order for. */
  predicate ClosesFalsely(s: State, e: Event)
    requires Enabled(s, e)
  {
    e.ShopAnswers? && Classify(e.answer) == NotMade(false) && s.attempts[e.id].phase.created.Some?
  }

  predicate Releases(e: Event) { e.ReleaseStep? || e.ReleaseLands? }

  ghost predicate SomeoneSelects(s: State, o: OrderId) {
    exists j :: j in s.attempts && s.attempts[j].phase.Selecting? && s.attempts[j].order == o
  }

  /** A release that lands between the two statements of a claim of the same order. */
  ghost predicate Races(s: State, e: Event)
    requires Enabled(s, e)
  {
    Releases(e) && SomeoneSelects(s, s.attempts[e.id].order)
  }

  /** What a step has to avoid for the shop to be written to once: the two above, the second
      only where the sale is one the shop can be asked for at all. */
  ghost predicate Harmful(s: State, e: Event)
    requires Enabled(s, e)
  {
    ClosesFalsely(s, e) || (Races(s, e) && Orderable(s.attempts[e.id].product))
  }

  /** An answer that names an order names the one the shop created. */
  predicate NamesTruly(s: State, e: Event)
    requires Enabled(s, e)
  {
    e.ShopAnswers? && Classify(e.answer).Made? ==>
      s.attempts[e.id].phase.created == Some(Placed(Classify(e.answer).id, Classify(e.answer).number))
  }

  ghost predicate Run(s: State, events: seq<Event>, t: State)
    decreases |events|
  {
    if events == [] then s == t
    else Enabled(s, events[0]) && Run(Apply(s, events[0]), events[1..], t)
  }

  ghost predicate Harmless(s: State, events: seq<Event>)
    decreases |events|
  {
    events != [] ==> Enabled(s, events[0]) && !Harmful(s, events[0]) && Harmless(Apply(s, events[0]), events[1..])
  }

  ghost predicate NamedTruly(s: State, events: seq<Event>)
    decreases |events|
  {
    events != [] ==> Enabled(s, events[0]) && NamesTruly(s, events[0]) && NamedTruly(Apply(s, events[0]), events[1..])
  }

  ghost predicate RaceFree(s: State, events: seq<Event>)
    decreases |events|
  {
    events != [] ==> Enabled(s, events[0]) && !Races(s, events[0]) && RaceFree(Apply(s, events[0]), events[1..])
  }

  // ---------------------------------------------------------------------------------------
  // At most one order per sale.

  /** Past its claim, and not yet done with it. */
  predicate Owns(p: Phase) {
    p.Calling? || p.CallAdrift? || p.Recording? || p.RecordAdrift? || p.Releasing? || p.ReleaseAdrift?
  }

  /** What the shop holds for a sale, against the phase of the attempt that has its claim. */
  predicate Believes(p: Phase, orders: seq<Placed>) {
    match p
    case Calling(created) => orders == OrdersOf(created)
    case CallAdrift(created) => orders == OrdersOf(created)
    case Releasing => orders == []
    case ReleaseAdrift => orders == []
    case _ => true
  }

  function OrdersOf(created: Option<Placed>): seq<Placed> { if created.Some? then [created.value] else [] }

  ghost predicate SaleWell(s: State, o: OrderId) {
    |OrdersIn(s, o)| <= 1 && (o !in s.ledger ==> OrdersIn(s, o) == [])
  }

  /** An attempt at a sale the shop can be asked for. */
  ghost predicate CanOrder(s: State, a: Attempt) {
    && (Owns(a.phase) ==> a.order in s.ledger && s.ledger[a.order].placed.None? && Believes(a.phase, OrdersIn(s, a.order)))
    && (a.phase.Selecting? ==> a.order in s.ledger)
    && (a.phase.Replied? && a.phase.reply.Delivered? ==>
          a.order in s.ledger && s.ledger[a.order].placed.Some?
          && s.ledger[a.order].placed.value.number == a.phase.reply.orderNumber)
  }

  /** And at one it cannot be: nothing ever comes of it. */
  ghost predicate CannotOrder(s: State, a: Attempt) {
    && OrdersIn(s, a.order) == [] && (a.order in s.ledger ==> s.ledger[a.order].placed.None?)
    && (a.phase.Calling? || a.phase.CallAdrift? ==> a.phase.created.None?)
    && !a.phase.Recording? && !a.phase.RecordAdrift? && (a.phase.Replied? ==> !a.phase.reply.Delivered?)
  }

  ghost predicate AttemptWell(s: State, i: AttemptId)
    requires i in s.attempts
  {
    var a := s.attempts[i];
    OneProduct(s, a.order, a.product) && if Orderable(a.product) then CanOrder(s, a) else CannotOrder(s, a)
  }

  /** Past a claim, at a sale the shop can be asked for. */
  predicate MayOrder(a: Attempt) { Owns(a.phase) && Orderable(a.product) }

  ghost predicate OneOwner(s: State) {
    forall i, j :: i in s.attempts && j in s.attempts && i != j && MayOrder(s.attempts[i]) && MayOrder(s.attempts[j]) ==>
      s.attempts[i].order != s.attempts[j].order
  }

  /** A sale nobody has drawn has nothing behind it. */
  ghost predicate Undrawn(s: State, o: OrderId) {
    (forall i :: i in s.attempts ==> s.attempts[i].order != o) ==> o !in s.ledger && OrdersIn(s, o) == []
  }

  ghost predicate Inv(s: State) {
    && (forall o :: SaleWell(s, o))
    && (forall o :: Undrawn(s, o))
    && (forall i :: i in s.attempts ==> AttemptWell(s, i))
    && OneOwner(s)
  }

  lemma StepKeepsSale(s: State, e: Event, o: OrderId)
    requires Inv(s) && Enabled(s, e)
    ensures SaleWell(Apply(s, e), o)
    ensures Undrawn(Apply(s, e), o)
  {
    assert SaleWell(s, o) && Undrawn(s, o);
    if !e.Draw? {
      assert AttemptWell(s, e.id);
      assert Apply(s, e).attempts[e.id].order == s.attempts[e.id].order;
    }
    if (forall i :: i in Apply(s, e).attempts ==> Apply(s, e).attempts[i].order != o) {
      assert forall i :: i in s.attempts ==> i in Apply(s, e).attempts && Apply(s, e).attempts[i].order == s.attempts[i].order;
    }
  }

  lemma StepKeepsProducts(s: State, e: Event, j: AttemptId)
    requires Enabled(s, e) && (forall i :: i in s.attempts ==> AttemptWell(s, i))
    requires j in Apply(s, e).attempts
    ensures OneProduct(Apply(s, e), Apply(s, e).attempts[j].order, Apply(s, e).attempts[j].product)
  {
    assert j in s.attempts ==> AttemptWell(s, j);
  }

  lemma StepKeepsActor(s: State, e: Event)
    requires Inv(s) && Enabled(s, e) && !Harmful(s, e)
    ensures AttemptWell(Apply(s, e), e.id)
  {
    StepKeepsProducts(s, e, e.id);
    if e.Draw? {
      DrawIsWell(s, e);
    } else if Orderable(s.attempts[e.id].product) {
      ActorCanOrder(s, e);
    } else {
      assert AttemptWell(s, e.id);
    }
  }

  lemma ActorCanOrder(s: State, e: Event)
    requires Inv(s) && Enabled(s, e) && !Harmful(s, e) && !e.Draw? && Orderable(s.attempts[e.id].product)
    ensures CanOrder(Apply(s, e), Apply(s, e).attempts[e.id])
  {
    assert AttemptWell(s, e.id) && SaleWell(s, s.attempts[e.id].order);
  }

  lemma DrawIsWell(s: State, e: Event)
    requires Inv(s) && Enabled(s, e) && e.Draw?
    ensures var a := Apply(s, e).attempts[e.id]; if Orderable(a.product) then CanOrder(Apply(s, e), a) else CannotOrder(Apply(s, e), a)
  {
    assert Undrawn(s, e.order);
    if i :| i in s.attempts && s.attempts[i].order == e.order { assert AttemptWell(s, i); }
  }

  lemma StepKeepsOther(s: State, e: Event, j: AttemptId)
    requires Inv(s) && Enabled(s, e) && !Harmful(s, e)
    requires j in s.attempts && j != e.id
    ensures AttemptWell(Apply(s, e), j)
  {
    StepKeepsProducts(s, e, j);
    assert AttemptWell(s, j);
    if !e.Draw? {
      assert AttemptWell(s, e.id);
    }
  }

  lemma StepKeepsOneOwner(s: State, e: Event)
    requires Inv(s) && Enabled(s, e)
    ensures OneOwner(Apply(s, e))
  {
    var t := Apply(s, e);
    forall j | j in s.attempts && j != e.id && MayOrder(s.attempts[j]) && MayOrder(t.attempts[e.id])
      ensures s.attempts[j].order != t.attempts[e.id].order
    {
      assert AttemptWell(s, j) && AttemptWell(s, e.id);
    }
  }

  lemma StepKeepsInv(s: State, e: Event)
    requires Inv(s) && Enabled(s, e) && !Harmful(s, e)
    ensures Inv(Apply(s, e))
  {
    forall o ensures SaleWell(Apply(s, e), o) && Undrawn(Apply(s, e), o) { StepKeepsSale(s, e, o); }
    StepKeepsActor(s, e);
    forall j | j in s.attempts && j != e.id ensures AttemptWell(Apply(s, e), j) { StepKeepsOther(s, e, j); }
    StepKeepsOneOwner(s, e);
  }

  lemma {:induction false} RunKeepsInv(s: State, events: seq<Event>, t: State)
    requires Inv(s) && Run(s, events, t) && Harmless(s, events)
    ensures Inv(t)
    decreases |events|
  {
    if events != [] {
      StepKeepsInv(s, events[0]);
      RunKeepsInv(Apply(s, events[0]), events[1..], t);
    }
  }

  lemma EmptyHasInv()
    ensures Inv(EMPTY)
  {
  }

  /** The rule of the file: in every run of redeliveries, races and crashes with no harmful step
      the shop is written to at most once per sale. A sale with no ledger row has no order, and
      nobody past a claim who could make one. */
  lemma ShopIsWrittenToOnce(events: seq<Event>, t: State, o: OrderId)
    requires Run(EMPTY, events, t) && Harmless(EMPTY, events)
    ensures |OrdersIn(t, o)| <= 1
    ensures o !in t.ledger ==> OrdersIn(t, o) == []
    ensures o !in t.ledger ==> forall i :: i in t.attempts && MayOrder(t.attempts[i]) ==> t.attempts[i].order != o
    ensures OneOwner(t)
  {
    EmptyHasInv();
    RunKeepsInv(EMPTY, events, t);
    assert SaleWell(t, o);
    forall i | i in t.attempts && MayOrder(t.attempts[i]) ensures t.attempts[i].order in t.ledger {
      assert AttemptWell(t, i);
    }
  }

  /** Everyone who was told a sale was delivered was told one number, the one on the ledger row,
      whatever the shop names its orders. */
  lemma EveryDeliveryIsTheSame(events: seq<Event>, t: State, i: AttemptId)
    requires Run(EMPTY, events, t) && Harmless(EMPTY, events)
    requires i in t.attempts && t.attempts[i].phase.Replied? && t.attempts[i].phase.reply.Delivered?
    ensures var o := t.attempts[i].order;
            o in t.ledger && t.ledger[o].placed.Some? && t.attempts[i].phase.reply.orderNumber == t.ledger[o].placed.value.number
    ensures forall j | j in t.attempts && t.attempts[j].order == t.attempts[i].order ::
              t.attempts[j].phase.Replied? && t.attempts[j].phase.reply.Delivered? ==> t.attempts[j].phase == t.attempts[i].phase
  {
    EmptyHasInv();
    RunKeepsInv(EMPTY, events, t);
    assert AttemptWell(t, i);
    forall j | j in t.attempts && t.attempts[j].order == t.attempts[i].order
      && t.attempts[j].phase.Replied? && t.attempts[j].phase.reply.Delivered?
      ensures t.attempts[j].phase == t.attempts[i].phase
    {
      assert AttemptWell(t, j);
    }
  }

  /** What truly named orders add: what is recorded, or about to be, is what the shop holds. */
  ghost predicate Named(s: State) {
    && (forall o :: o in s.ledger && s.ledger[o].placed.Some? ==> OrdersIn(s, o) == [s.ledger[o].placed.value])
    && (forall i :: i in s.attempts && (s.attempts[i].phase.Recording? || s.attempts[i].phase.RecordAdrift?) ==>
          OrdersIn(s, s.attempts[i].order) == [s.attempts[i].phase.placed])
  }

  lemma StepKeepsNamed(s: State, e: Event)
    requires Inv(s) && Named(s) && Enabled(s, e) && NamesTruly(s, e)
    ensures Named(Apply(s, e))
  {
    var t := Apply(s, e);
    assert e.id in s.attempts ==> AttemptWell(s, e.id);
    forall i | i in s.attempts && i != e.id && (s.attempts[i].phase.Recording? || s.attempts[i].phase.RecordAdrift?)
      ensures OrdersIn(t, s.attempts[i].order) == [s.attempts[i].phase.placed]
    {
      assert AttemptWell(s, i);
    }
  }

  lemma {:induction false} RunKeepsNamed(s: State, events: seq<Event>, t: State)
    requires Inv(s) && Named(s) && Run(s, events, t) && Harmless(s, events) && NamedTruly(s, events)
    ensures Inv(t) && Named(t)
    decreases |events|
  {
    if events != [] {
      StepKeepsNamed(s, events[0]);
      StepKeepsInv(s, events[0]);
      RunKeepsNamed(Apply(s, events[0]), events[1..], t);
    }
  }

  /** And where a named order is the one created, that number is the number of the one order the
      shop holds for the sale. */
  lemma EveryDeliveryNamesTheOneOrder(events: seq<Event>, t: State, i: AttemptId)
    requires Run(EMPTY, events, t) && Harmless(EMPTY, events) && NamedTruly(EMPTY, events)
    requires i in t.attempts && t.attempts[i].phase.Replied? && t.attempts[i].phase.reply.Delivered?
    ensures var o := t.attempts[i].order;
            && o in t.ledger && t.ledger[o].placed.Some?
            && OrdersIn(t, o) == [t.ledger[o].placed.value]
            && t.attempts[i].phase.reply.orderNumber == OrdersIn(t, o)[0].number
  {
    EmptyHasInv();
    RunKeepsNamed(EMPTY, events, t);
    assert AttemptWell(t, i);
  }

  lemma StepKeepsPlaced(s: State, e: Event, o: OrderId)
    requires Enabled(s, e) && o in s.ledger && s.ledger[o].placed.Some?
    ensures o in Apply(s, e).ledger && Apply(s, e).ledger[o].placed.Some?
    ensures Inv(s) ==> Apply(s, e).ledger[o].placed == s.ledger[o].placed
  {
    if Inv(s) && e.id in s.attempts { assert AttemptWell(s, e.id); }
  }

  /** A row that carries an order number is never released, in any run; and from a state that
      harmless runs keep, no harmless run rewrites it. */
  lemma {:induction false} PlacedForGood(s: State, events: seq<Event>, t: State, o: OrderId)
    requires Run(s, events, t) && o in s.ledger && s.ledger[o].placed.Some?
    ensures o in t.ledger && t.ledger[o].placed.Some?
    ensures Inv(s) && Harmless(s, events) ==> t.ledger[o].placed == s.ledger[o].placed
    decreases |events|
  {
    if events != [] {
      StepKeepsPlaced(s, events[0], o);
      PlacedForGood(Apply(s, events[0]), events[1..], t, o);
      if Inv(s) && Harmless(s, events) { StepKeepsInv(s, events[0]); }
    }
  }

  // ---------------------------------------------------------------------------------------
  // The two-statement claim against the one-step claim.

  /** An attempt against the same one in the memory store. Between its statements a claim has,
      there, not been made yet; and one that died between them died before making it. */
  predicate Matches(a: Attempt, b: Attempt) {
    || (a == b && !a.phase.Selecting?)
    || (a.phase.Selecting? && b == a.(phase := Drawn))
    || (a.phase.Dead? && b == a.(phase := ClaimAdrift))
  }

  ghost predicate MatchesAll(s: State, m: State) {
    && m.ledger == s.ledger && m.shop == s.shop && m.attempts.Keys == s.attempts.Keys
    && forall i :: i in s.attempts ==> Matches(s.attempts[i], m.attempts[i])
  }

  /** The memory store's events for one event here. */
  function MemoryEvents(s: State, e: Event): seq<Event>
    requires Enabled(s, e)
  {
    match e
    case InsertStep(i, now) => if s.attempts[i].order in s.ledger then [] else [ClaimStep(i, now)]
    case SelectStep(i) => [ClaimStep(i, 0)]
    case _ => [e]
  }

  function MemoryRun(s: State, events: seq<Event>): seq<Event>
    decreases |events|
  {
    if events == [] || !Enabled(s, events[0]) then [] else MemoryEvents(s, events[0]) + MemoryRun(Apply(s, events[0]), events[1..])
  }

  predicate OneStepClaims(events: seq<Event>) {
    forall n :: 0 <= n < |events| ==> !events[n].InsertStep? && !events[n].SelectStep?
  }

  lemma OneEventRun(m: State, e: Event)
    requires Enabled(m, e)
    ensures Run(m, [e], Apply(m, e))
  {
    assert [e][1..] == [];
    assert Run(Apply(m, e), [], Apply(m, e));
  }

  /** A claim between its statements has found a row, and nobody has taken it away since. */
  ghost predicate SelectsHeld(s: State) {
    forall i :: i in s.attempts && s.attempts[i].phase.Selecting? ==> s.attempts[i].order in s.ledger
  }

  lemma StepKeepsSelectsHeld(s: State, e: Event)
    requires SelectsHeld(s) && Enabled(s, e) && !Races(s, e)
    ensures SelectsHeld(Apply(s, e))
  {
  }

  lemma ClaimMatches(s: State, e: Event, m: State)
    requires SelectsHeld(s) && MatchesAll(s, m) && Enabled(s, e) && (e.SelectStep? || (e.InsertStep? && s.attempts[e.id].order !in s.ledger))
    ensures Enabled(m, MemoryEvents(s, e)[0])
    ensures MatchesAll(Apply(s, e), Apply(m, MemoryEvents(s, e)[0]))
  {
    var a, b, f := s.attempts[e.id], m.attempts[e.id], MemoryEvents(s, e)[0];
    assert b == a.(phase := Drawn) && Fits(b, f);
    assert LedgerAfter(s.ledger, a, e) == LedgerAfter(m.ledger, b, f);
    assert After(s, a, e) == After(m, b, f);
    assert Apply(s, e).attempts[e.id] == Apply(m, f).attempts[e.id];
  }

  lemma OtherMatches(s: State, e: Event, m: State)
    requires MatchesAll(s, m) && Enabled(s, e) && !e.SelectStep? && !e.InsertStep?
    ensures Enabled(m, e)
    ensures MatchesAll(Apply(s, e), Apply(m, e))
  {
    if !e.Draw? {
      var a, b := s.attempts[e.id], m.attempts[e.id];
      if !e.Crash? { assert a == b || (a.phase.Dead? && e.ClaimLands?); }
      assert Fits(b, e);
      assert LedgerAfter(s.ledger, a, e) == LedgerAfter(m.ledger, b, e);
      assert Matches(Apply(s, e).attempts[e.id], Apply(m, e).attempts[e.id]);
    }
  }

  lemma StepMatches(s: State, e: Event, m: State) returns (u: State)
    requires SelectsHeld(s) && MatchesAll(s, m) && Enabled(s, e)
    ensures Run(m, MemoryEvents(s, e), u) && MatchesAll(Apply(s, e), u)
    ensures OneStepClaims(MemoryEvents(s, e))
  {
    var es := MemoryEvents(s, e);
    if es == [] {
      return m;
    }
    if e.SelectStep? || e.InsertStep? { ClaimMatches(s, e, m); } else { OtherMatches(s, e, m); }
    OneEventRun(m, es[0]);
    u := Apply(m, es[0]);
  }

  lemma {:induction false} RunsJoin(s: State, a: seq<Event>, u: State, b: seq<Event>, t: State)
    requires Run(s, a, u) && Run(u, b, t)
    ensures Run(s, a + b, t)
    decreases |a|
  {
    if a == [] {
      assert a + b == b;
    } else {
      RunsJoin(Apply(s, a[0]), a[1..], u, b, t);
      assert (a + b)[1..] == a[1..] + b;
    }
  }

  /** Where no release falls between the statements of a claim of the same order, and whatever
      the shop answers, a run of Postgres claims is a run of one-step claims with the same
      answers, ledger and shop at its end. */
  lemma {:induction false} PostgresRunIsAMemoryRun(s: State, events: seq<Event>, t: State, m: State) returns (u: State)
    requires SelectsHeld(s) && MatchesAll(s, m)
    requires Run(s, events, t) && RaceFree(s, events)
    ensures Run(m, MemoryRun(s, events), u) && MatchesAll(t, u)
    ensures OneStepClaims(MemoryRun(s, events))
    decreases |events|
  {
    if events == [] { return m; }
    var e, s' := events[0], Apply(s, events[0]);
    StepKeepsSelectsHeld(s, e);
    var m' := StepMatches(s, e, m);
    u := PostgresRunIsAMemoryRun(s', events[1..], t, m');
    RunsJoin(m, MemoryEvents(s, e), m', MemoryRun(s', events[1..]), u);
  }

  // ---------------------------------------------------------------------------------------
  // Exactly when a sale can be ordered twice.

  /** A run with no harmful step. */
  ghost predicate Reach(s: State, events: seq<Event>, t: State) { Run(s, events, t) && Harmless(s, events) }

  lemma {:induction false} ReachThen(start: State, events: seq<Event>, s: State, e: Event) returns (more: seq<Event>, t: State)
    requires Reach(start, events, s) && Enabled(s, e) && !Harmful(s, e)
    ensures more == events + [e] && t == Apply(s, e) && Reach(start, more, t)
    decreases |events|
  {
    more, t := events + [e], Apply(s, e);
    if events == [] {
      assert more == [e] && [e][1..] == [] && Run(t, [], t) && Harmless(t, []);
    } else {
      var rest, u := ReachThen(Apply(start, events[0]), events[1..], s, e);
      assert more[1..] == rest;
    }
  }

  ghost predicate MayDouble(s: State) { exists events, t, o :: Reach(s, events, t) && |OrdersIn(t, o)| > 1 }

  ghost function SelectorsOf(s: State, o: OrderId): set<AttemptId> {
    set i | i in s.attempts && s.attempts[i].phase.Selecting? && s.attempts[i].order == o
  }

  predicate DiedSelecting(a: Attempt, b: Attempt, o: OrderId) {
    a == b || (a.phase.Selecting? && a.order == o && b == a.(phase := Dead))
  }

  /** Every claim of an order that is between its statements may die there. */
  lemma {:induction false} DrainSelecting(start: State, before: seq<Event>, s: State, o: OrderId) returns (events: seq<Event>, t: State)
    requires Reach(start, before, s)
    ensures Reach(start, events, t) && !SomeoneSelects(t, o)
    ensures t.ledger == s.ledger && t.shop == s.shop && t.attempts.Keys == s.attempts.Keys
    ensures forall i :: i in s.attempts ==> DiedSelecting(s.attempts[i], t.attempts[i], o)
    decreases |SelectorsOf(s, o)|
  {
    if !SomeoneSelects(s, o) {
      return before, s;
    }
    var j :| j in s.attempts && s.attempts[j].phase.Selecting? && s.attempts[j].order == o;
    var more, u := ReachThen(start, before, s, Crash(j));
    assert SelectorsOf(u, o) == SelectorsOf(s, o) - {j};
    events, t := DrainSelecting(start, more, u, o);
  }

  /** A redelivery of a sale whose ledger row is gone: it claims, and the shop creates. */
  lemma RedeliveryOrdersAgain(start: State, before: seq<Event>, s: State, o: OrderId, product: ProductNumber, q: Placed)
    returns (events: seq<Event>, t: State)
    requires Reach(start, before, s) && o !in s.ledger && Orderable(product) && OneProduct(s, o, product)
    ensures Reach(start, events, t) && OrdersIn(t, o) == OrdersIn(s, o) + [q]
    ensures forall i :: i in s.attempts ==> i in t.attempts && t.attempts[i] == s.attempts[i]
  {
    var k := Unused(s.attempts.Keys);
    var s1, s2: State;
    events, s1 := ReachThen(start, before, s, Draw(k, o, "", product, true));
    events, s2 := ReachThen(start, events, s1, InsertStep(k, 0));
    assert s2.attempts[k].phase == Calling(None);
    events, t := ReachThen(start, events, s2, ShopCreates(k, q));
  }

  /** A claim between its statements whose row is gone answers that the sale is its own, and a
      redelivery claims it as well. */
  lemma ClaimWithoutARow(s: State, j: AttemptId)
    requires j in s.attempts && s.attempts[j].phase.Selecting? && s.attempts[j].order !in s.ledger
    requires Orderable(s.attempts[j].product) && OneProduct(s, s.attempts[j].order, s.attempts[j].product)
    ensures MayDouble(s)
  {
    var o, product := s.attempts[j].order, s.attempts[j].product;
    assert Reach(s, [], s);
    var events, s1 := ReachThen(s, [], s, SelectStep(j));
    assert s1.attempts[j] == Attempt(o, s.attempts[j].account, product, Calling(None));
    var s2, t: State;
    events, s2 := RedeliveryOrdersAgain(s, events, s1, o, product, Placed("", ""));
    events, t := ReachThen(s, events, s2, ShopCreates(j, Placed("", "")));
    assert |OrdersIn(t, o)| > 1;
  }

  /** A release that falls between the statements of a claim of an orderable sale, landing late
      or not. */
  lemma RacingReleaseDoublesTheOrder(s: State, e: Event)
    requires Inv(s) && Enabled(s, e) && Races(s, e) && Orderable(s.attempts[e.id].product)
    ensures MayDouble(Apply(s, e))
  {
    assert AttemptWell(s, e.id);
    var j :| j in s.attempts && s.attempts[j].phase.Selecting? && s.attempts[j].order == s.attempts[e.id].order;
    assert AttemptWell(s, j);
    assert Apply(s, e).attempts[j] == s.attempts[j];
    ClaimWithoutARow(Apply(s, e), j);
  }

  /** An answer that closes a sale the shop did create an order for: the claim is released and
      the next delivery of the sale can order again. Such answers are refusals that lied, and
      the two kinds of 2xx that name no order. */
  lemma ClosingAnswerMustBeTrue(s: State, e: Event)
    requires Inv(s) && Enabled(s, e) && ClosesFalsely(s, e)
    ensures MayDouble(Apply(s, e))
  {
    var o, product := s.attempts[e.id].order, s.attempts[e.id].product;
    assert AttemptWell(s, e.id);
    var s1 := Apply(s, e);
    assert Reach(s1, [], s1);
    var events, s2 := DrainSelecting(s1, [], s1, o);
    assert s2.attempts[e.id] == s1.attempts[e.id];
    var s3, t: State;
    events, s3 := ReachThen(s1, events, s2, ReleaseStep(e.id));
    forall i | i in s3.attempts && s3.attempts[i].order == o ensures s3.attempts[i].product == product {
      assert DiedSelecting(s1.attempts[i], s2.attempts[i], o);
    }
    events, t := RedeliveryOrdersAgain(s1, events, s3, o, product, Placed("", ""));
    assert |OrdersIn(t, o)| > 1;
  }

  /** From a state that harmless runs keep, a step opens the way to a second order for some sale
      if and only if it is a harmful one: a false closing answer, or a release, landing late
      included, between the statements of a claim of the same sale, where the sale is orderable
      at all. */
  lemma SaleIsDoubledExactlyWhen(s: State, e: Event)
    requires Inv(s) && Enabled(s, e)
    ensures MayDouble(Apply(s, e)) <==> Harmful(s, e)
  {
    if ClosesFalsely(s, e) {
      ClosingAnswerMustBeTrue(s, e);
    } else if Harmful(s, e) {
      RacingReleaseDoublesTheOrder(s, e);
    } else {
      StepKeepsInv(s, e);
      forall events, t, o | Reach(Apply(s, e), events, t) ensures |OrdersIn(t, o)| <= 1 {
        RunKeepsInv(Apply(s, e), events, t);
        assert SaleWell(t, o);
      }
    }
  }

  /** One attempt at a sale past its claim, and a redelivery between its statements. */
  lemma ClaimedTwice(o: OrderId) returns (events: seq<Event>, s: State)
    ensures Reach(EMPTY, events, s) && s.attempts.Keys == {0, 1}
    ensures s.attempts[0] == Attempt(o, "", Whole(1), Calling(None)) && s.attempts[1] == Attempt(o, "", Whole(1), Selecting)
  {
    var s1, s2, s3: State;
    events, s1 := ReachThen(EMPTY, [], EMPTY, Draw(0, o, "", Whole(1), true));
    events, s2 := ReachThen(EMPTY, events, s1, InsertStep(0, 0));
    events, s3 := ReachThen(EMPTY, events, s2, Draw(1, o, "", Whole(1), true));
    assert s3.attempts[1].phase == Drawn && o in s3.ledger;
    events, s := ReachThen(EMPTY, events, s3, InsertStep(1, 0));
  }

  /** Each harmful step is reached from the start: by a refusal while a redelivery is between
      statements, whether its release goes through or gets lost and lands later, ... */
  lemma RacesHappen(o: OrderId) returns (events: seq<Event>, racing: State, later: seq<Event>, late: State)
    ensures Reach(EMPTY, events, racing) && Enabled(racing, ReleaseStep(0)) && Harmful(racing, ReleaseStep(0))
    ensures Reach(EMPTY, later, late) && Enabled(late, ReleaseLands(0)) && Harmful(late, ReleaseLands(0))
  {
    var twice, s := ClaimedTwice(o);
    events, racing := ReachThen(EMPTY, twice, s, ShopAnswers(0, Answered(422, NotADocument)));
    assert racing.attempts[0].phase == Releasing && racing.attempts[1] == s.attempts[1];
    later, late := ReachThen(EMPTY, events, racing, Crash(0));
    assert late.attempts[1] == s.attempts[1];
  }

  /** ... and by a shop that creates the order and answers 200 with a page that is not JSON. */
  lemma FalseAnswerHappens(o: OrderId, p: Placed) returns (events: seq<Event>, s: State, e: Event)
    ensures Reach(EMPTY, events, s) && e == ShopAnswers(0, Answered(200, NotADocument))
    ensures Enabled(s, e) && ClosesFalsely(s, e)
  {
    var twice, claimed := ClaimedTwice(o);
    events, s := ReachThen(EMPTY, twice, claimed, ShopCreates(0, p));
    e := ShopAnswers(0, Answered(200, NotADocument));
  }

  // ---------------------------------------------------------------------------------------
  // `fillFromTheShop` itself, from the first line to the last with nobody in between.

  /** Some run of one-step claims. */
  ghost predicate Leads(s: State, t: State) { exists events :: Run(s, events, t) && OneStepClaims(events) }

  lemma LeadsNowhere(s: State)
    ensures Leads(s, s)
  {
    assert Run(s, [], s) && OneStepClaims([]);
  }

  lemma LeadsOn(start: State, s: State, e: Event)
    requires Leads(start, s) && Enabled(s, e) && OneStepClaims([e])
    ensures Leads(start, Apply(s, e))
  {
    var events :| Run(start, events, s) && OneStepClaims(events);
    OneEventRun(s, e);
    RunsJoin(start, events, s, [e], Apply(s, e));
    assert OneStepClaims(events + [e]);
  }

  datatype Filled = Replies(reply: Reply) | Throws

  /** The call that places the order: refused before it is made, or classified. */
  function PlaceOrder(product: ProductNumber, answer: Answer): OrderMade {
    if Orderable(product) then Classify(answer) else NotMade(false)
  }

  /** What an order call comes to for the gateway: a number, a refusal, or nothing said. */
  function ReplyTo(made: OrderMade): Filled {
    match made
    case Made(_, number) => Replies(Delivered(number))
    case NotMade(again) => Replies(if again then Silent else Refusal)
    case Thrown => Throws
  }

  /** What one delivery of a sale is answered, given the ledger it meets: the shop is asked only
      for a sale with no row, under a connection that may write. */
  function FilledBy(ledger: Ledger, order: OrderId, mayWrite: bool, made: OrderMade): Filled {
    if !mayWrite then Replies(Refusal)
    else if order !in ledger then ReplyTo(made)
    else match ledger[order].placed
      case Some(placed) => Replies(Delivered(placed.number))
      case None => Replies(Refusal)
  }

  /** And the ledger it leaves: a new row with the order that was made, or with none where that
      is not known; no row where the shop said no; and an old row as it was. */
  function LedgerBy(ledger: Ledger, order: OrderId, account: string, mayWrite: bool, made: OrderMade, now: Instant): Ledger {
    if !mayWrite || order in ledger || made == NotMade(false) then ledger
    else ledger[order := Row(account, now, if made.Made? then Some(Placed(made.id, made.number)) else None)]
  }

  /** The first half: what is told without asking the shop, and a claim where it has to be. */
  method FillFromTheShop(store: MemoryWooShops, order: OrderId, account: string, permissions: string,
                         product: ProductNumber, answer: Answer, now: Instant)
    returns (filled: Filled)
    modifies store`orders
    ensures filled == FilledBy(old(store.orders), order, permissions == "read_write", PlaceOrder(product, answer))
    ensures store.orders == LedgerBy(old(store.orders), order, account, permissions == "read_write", PlaceOrder(product, answer), now)
  {
    if permissions != "read_write" {
      return Replies(Refusal);
    }
    var claim := store.ClaimOrder(account, order, now);
    match claim {
      case AlreadyPlaced(placed) => return Replies(Delivered(placed.number));
      case Unknown(_) => return Replies(Refusal);
      case Ours =>
        filled := AnswerTheSale(store, order, PlaceOrder(product, answer));
    }
  }

  /** What becomes of the claim once the shop has been asked: it gets its number, stays as it is,
      or goes. */
  function AskedLeaves(ledger: Ledger, order: OrderId, made: OrderMade): Ledger
    requires order in ledger
  {
    match made
    case Made(id, number) => ledger[order := ledger[order].(placed := Some(Placed(id, number)))]
    case NotMade(again) => if again then ledger else ledger - {order}
    case Thrown => ledger
  }

  /** The second half, once the claim is this attempt's. */
  method AnswerTheSale(store: MemoryWooShops, order: OrderId, made: OrderMade) returns (filled: Filled)
    requires order in store.orders && store.orders[order].placed.None?
    modifies store`orders
    ensures filled == ReplyTo(made)
    ensures store.orders == AskedLeaves(old(store.orders), order, made)
  {
    match made {
      case Thrown => return Throws;
      case Made(shopId, number) =>
        store.RecordOrder(order, Placed(shopId, number));
        return Replies(Delivered(number));
      case NotMade(again) =>
        if again {
          return Replies(Silent);
        }
        store.ReleaseOrder(order);
        return Replies(Refusal);
    }
  }

  /** What the attempt's last phase is to the caller. */
  predicate Comes(filled: Filled, p: Phase) {
    match filled
    case Replies(Silent) => p.CallAdrift?
    case Replies(reply) => p == Replied(reply)
    case Throws => p.CallAdrift?
  }

  /** The state once one attempt has come and gone: its orders, its phase, the ledger it leaves. */
  ghost predicate Gone(s: State, t: State, id: AttemptId, order: OrderId, product: ProductNumber, filled: Filled, ledger: Ledger, orders: seq<Placed>) {
    && t.ledger == ledger && id in t.attempts && t.attempts == s.attempts[id := t.attempts[id]]
    && t.attempts[id].order == order && t.attempts[id].product == product && Comes(filled, t.attempts[id].phase)
    && OrdersIn(t, order) == OrdersIn(s, order) + orders
  }

  function Asks(ledger: Ledger, order: OrderId, mayWrite: bool): bool { mayWrite && order !in ledger }

  /** What one POST that reports an order has created. */
  function Created(made: OrderMade): seq<Placed> { if made.Made? then [Placed(made.id, made.number)] else [] }

  /** What `FillFromTheShop` answers and leaves is what one attempt of the machine replies and
      leaves, with nobody in between, in which the shop creates the order it reports. */
  lemma FillIsARun(start: State, s: State, id: AttemptId, order: OrderId, account: string, mayWrite: bool,
                   product: ProductNumber, answer: Answer, now: Instant)
    returns (t: State)
    requires Leads(start, s) && id !in s.attempts && OneProduct(s, order, product)
    ensures Leads(start, t)
    ensures var made := PlaceOrder(product, answer);
            Gone(s, t, id, order, product, FilledBy(s.ledger, order, mayWrite, made),
                 LedgerBy(s.ledger, order, account, mayWrite, made, now),
                 if Asks(s.ledger, order, mayWrite) then Created(made) else [])
  {
    if !mayWrite {
      var drawn := Draw(id, order, account, product, false);
      t := Apply(s, drawn);
      LeadsOn(start, s, drawn);
    } else if order in s.ledger {
      t := ClaimIsARun(start, s, id, order, account, product, now);
    } else {
      t := FirstIsARun(start, s, id, order, account, product, answer, now);
    }
  }

  lemma FirstIsARun(start: State, s: State, id: AttemptId, order: OrderId, account: string, product: ProductNumber,
                    answer: Answer, now: Instant)
    returns (t: State)
    requires Leads(start, s) && id !in s.attempts && OneProduct(s, order, product) && order !in s.ledger
    ensures Leads(start, t)
    ensures var made := PlaceOrder(product, answer);
            Gone(s, t, id, order, product, ReplyTo(made), LedgerBy(s.ledger, order, account, true, made, now), Created(made))
  {
    var claimed := ClaimIsARun(start, s, id, order, account, product, now);
    var made := PlaceOrder(product, answer);
    t := AskedIsARun(start, claimed, id, answer);
    GoneSince(s, claimed, t, id, order, product, ReplyTo(made), AskedLeaves(claimed.ledger, order, made), Created(made));
    assert AskedLeaves(claimed.ledger, order, made) == LedgerBy(s.ledger, order, account, true, made, now);
  }

  lemma GoneSince(s: State, u: State, t: State, id: AttemptId, order: OrderId, product: ProductNumber, filled: Filled, ledger: Ledger, orders: seq<Placed>)
    requires id in u.attempts && u.attempts == s.attempts[id := u.attempts[id]] && u.shop == s.shop
    requires Gone(u, t, id, order, product, filled, ledger, orders)
    ensures Gone(s, t, id, order, product, filled, ledger, orders)
  {
  }

  lemma ClaimIsARun(start: State, s: State, id: AttemptId, order: OrderId, account: string, product: ProductNumber, now: Instant)
    returns (t: State)
    requires Leads(start, s) && id !in s.attempts && OneProduct(s, order, product)
    ensures Leads(start, t)
    ensures t == State(AfterClaim(s.ledger, account, order, now), s.shop,
                       s.attempts[id := Attempt(order, account, product, AfterAnswer(ClaimAnswer(s.ledger, order)))])
  {
    var drawn := Draw(id, order, account, product, true);
    LeadsOn(start, s, drawn);
    LeadsOn(start, Apply(s, drawn), ClaimStep(id, now));
    t := Apply(Apply(s, drawn), ClaimStep(id, now));
  }

  lemma AskedIsARun(start: State, s: State, id: AttemptId, answer: Answer) returns (t: State)
    requires Leads(start, s) && id in s.attempts && s.attempts[id].phase == Calling(None)
    requires s.attempts[id].order in s.ledger && s.ledger[s.attempts[id].order].placed.None?
    ensures Leads(start, t)
    ensures var made, order := PlaceOrder(s.attempts[id].product, answer), s.attempts[id].order;
            Gone(s, t, id, order, s.attempts[id].product, ReplyTo(made), AskedLeaves(s.ledger, order, made), Created(made))
  {
    var made := PlaceOrder(s.attempts[id].product, answer);
    if made.Made? {
      t := MadeIsARun(start, s, id, answer, Placed(made.id, made.number));
    } else {
      var answered := if Orderable(s.attempts[id].product) then ShopAnswers(id, answer) else NotAProduct(id);
      t := Apply(s, answered);
      LeadsOn(start, s, answered);
      if made == NotMade(false) {
        LeadsOn(start, t, ReleaseStep(id));
        t := Apply(t, ReleaseStep(id));
      }
      assert t.attempts == s.attempts[id := t.attempts[id]];
    }
  }

  lemma MadeIsARun(start: State, s: State, id: AttemptId, answer: Answer, p: Placed) returns (t: State)
    requires Leads(start, s) && id in s.attempts && s.attempts[id].phase == Calling(None)
    requires Orderable(s.attempts[id].product) && Classify(answer) == Made(p.id, p.number)
    requires s.attempts[id].order in s.ledger && s.ledger[s.attempts[id].order].placed.None?
    ensures Leads(start, t)
    ensures var order := s.attempts[id].order;
            Gone(s, t, id, order, s.attempts[id].product, Replies(Delivered(p.number)), AskedLeaves(s.ledger, order, Made(p.id, p.number)), [p])
  {
    var u := CreatedIsARun(start, s, id, answer, p);
    t := Apply(u, RecordStep(id));
    LeadsOn(start, u, RecordStep(id));
    assert t.attempts == s.attempts[id := t.attempts[id]];
  }

  lemma CreatedIsARun(start: State, s: State, id: AttemptId, answer: Answer, p: Placed) returns (t: State)
    requires Leads(start, s) && id in s.attempts && s.attempts[id].phase == Calling(None)
    requires Orderable(s.attempts[id].product) && Classify(answer) == Made(p.id, p.number)
    ensures Leads(start, t)
    ensures var a := s.attempts[id];
            t == State(s.ledger, s.shop[a.order := OrdersIn(s, a.order) + [p]], s.attempts[id := a.(phase := Recording(p))])
  {
    var created := Apply(s, ShopCreates(id, p));
    LeadsOn(start, s, ShopCreates(id, p));
    LeadsOn(start, created, ShopAnswers(id, answer));
    t := Apply(created, ShopAnswers(id, answer));
  }

  // ---------------------------------------------------------------------------------------
  // `turnOnce`: what was drawn is filled, one after another, and answered.

  /** One envelope of the stream, and beside an order what its attempt meets: the clock at the
      claim and the shop's answer to the POST. */
  datatype Envelope = Sale(order: OrderId, claimedAt: Instant, answer: Answer) | Other

  /** The orders drawn, in order. */
  function Sales(envelopes: seq<Envelope>): seq<OrderId> {
    if envelopes == [] then []
    else
      var last := envelopes[|envelopes| - 1];
      Sales(envelopes[..|envelopes| - 1]) + if last.Sale? then [last.order] else []
  }

  /** What the gateway is told after an order: its reply, unless there is none. */
  function Answering(order: OrderId, reply: Filled): seq<(OrderId, Reply)> {
    match reply
    case Throws => []
    case Replies(Silent) => []
    case Replies(said) => [(order, said)]
  }

  /** The connection a turn is for, and the product each sale is of: its card's key, the same at
      every delivery. */
  datatype Shop = Shop(account: string, permissions: string, productOf: OrderId -> ProductNumber)

  predicate MayWrite(shop: Shop) { shop.permissions == "read_write" }

  /** A turn so far: the orders filled, what the gateway was told, whether a call threw, and the
      ledger it leaves. */
  datatype Turn = Turn(orders: seq<OrderId>, told: seq<(OrderId, Reply)>, threw: bool, ledger: Ledger)

  /** One envelope more. A call that throws has ended the turn. */
  function TurnOn(turn: Turn, shop: Shop, e: Envelope): Turn {
    if turn.threw || e.Other? then turn
    else
      var made := PlaceOrder(shop.productOf(e.order), e.answer);
      var filled := FilledBy(turn.ledger, e.order, MayWrite(shop), made);
      Turn(turn.orders + [e.order], turn.told + Answering(e.order, filled), filled.Throws?,
           LedgerBy(turn.ledger, e.order, shop.account, MayWrite(shop), made, e.claimedAt))
  }

  function TurnOf(ledger: Ledger, shop: Shop, envelopes: seq<Envelope>): Turn {
    if envelopes == [] then Turn([], [], false, ledger)
    else TurnOn(TurnOf(ledger, shop, envelopes[..|envelopes| - 1]), shop, envelopes[|envelopes| - 1])
  }

  /** One order of a turn: filled, and answered where there is an answer. */
  method TakeOne(store: MemoryWooShops, sale: Envelope, shop: Shop) returns (threw: bool, answers: seq<(OrderId, Reply)>)
    requires sale.Sale?
    modifies store`orders
    ensures var made := PlaceOrder(shop.productOf(sale.order), sale.answer);
            var filled := FilledBy(old(store.orders), sale.order, MayWrite(shop), made);
            && threw == filled.Throws? && answers == Answering(sale.order, filled)
            && store.orders == LedgerBy(old(store.orders), sale.order, shop.account, MayWrite(shop), made, sale.claimedAt)
  {
    var reply := FillFromTheShop(store, sale.order, shop.account, shop.permissions, shop.productOf(sale.order), sale.answer, sale.claimedAt);
    threw, answers := reply.Throws?, Answering(sale.order, reply);
  }

  /** The loop fills and answers exactly as the function has it. Nothing is drawn where the
      account is gone or the poll fails. */
  method TurnOnce(store: MemoryWooShops, envelopes: seq<Envelope>, shop: Shop) returns (filled: nat, told: seq<(OrderId, Reply)>, threw: bool)
    modifies store`orders
    ensures var turn := TurnOf(old(store.orders), shop, envelopes);
            filled == |turn.orders| && told == turn.told && threw == turn.threw && store.orders == turn.ledger
  {
    filled, told, threw := 0, [], false;
    var n := 0;
    while n < |envelopes| && !threw
      invariant 0 <= n <= |envelopes|
      invariant var turn := TurnOf(old(store.orders), shop, envelopes[..n]);
                filled == |turn.orders| && told == turn.told && threw == turn.threw && store.orders == turn.ledger
    {
      assert envelopes[..n + 1][..n] == envelopes[..n];
      if envelopes[n].Sale? {
        var answers: seq<(OrderId, Reply)>;
        threw, answers := TakeOne(store, envelopes[n], shop);
        filled, told := filled + 1, told + answers;
      }
      n := n + 1;
    }
    assert envelopes[..|envelopes|] == envelopes;
    if threw { ThrownStays(old(store.orders), shop, envelopes, n); }
  }

  lemma {:induction false} ThrownStays(ledger: Ledger, shop: Shop, envelopes: seq<Envelope>, n: nat)
    requires n <= |envelopes| && TurnOf(ledger, shop, envelopes[..n]).threw
    ensures TurnOf(ledger, shop, envelopes) == TurnOf(ledger, shop, envelopes[..n])
    decreases |envelopes|
  {
    if n == |envelopes| {
      assert envelopes[..n] == envelopes;
    } else {
      var init := envelopes[..|envelopes| - 1];
      assert init[..n] == envelopes[..n];
      ThrownStays(ledger, shop, init, n);
    }
  }

  predicate OfTheirProducts(s: State, productOf: OrderId -> ProductNumber) {
    forall i :: i in s.attempts ==> s.attempts[i].product == productOf(s.attempts[i].order)
  }

  /** What so many attempts, from `first` on, told the gateway: each its reply, in order, and
      nothing for one that stays silent. */
  function Told(s: State, first: nat, count: nat): seq<(OrderId, Reply)> {
    if count == 0 then []
    else
      var i := first + count - 1;
      Told(s, first, count - 1)
        + if i in s.attempts && s.attempts[i].phase.Replied? then [(s.attempts[i].order, s.attempts[i].phase.reply)] else []
  }

  lemma {:induction false} ToldBefore(s: State, t: State, first: nat, count: nat)
    requires t.attempts.Keys >= s.attempts.Keys && forall i :: first <= i < first + count && i in t.attempts ==> i in s.attempts && t.attempts[i] == s.attempts[i]
    ensures Told(t, first, count) == Told(s, first, count)
  {
    if count > 0 { ToldBefore(s, t, first, count - 1); }
  }

  predicate DoneAt(s: State, id: AttemptId, order: OrderId) { id in s.attempts && s.attempts[id].order == order }

  /** A run with an attempt at each of these orders, from `first` on, and nobody else's touched. */
  ghost predicate TurnRun(s: State, first: nat, productOf: OrderId -> ProductNumber, t: State, turn: Turn) {
    && Leads(s, t) && OfTheirProducts(t, productOf)
    && t.ledger == turn.ledger && turn.told == Told(t, first, |turn.orders|)
    && (forall i :: i in t.attempts ==> i < first + |turn.orders|)
    && (forall i :: i in s.attempts ==> i in t.attempts && t.attempts[i] == s.attempts[i])
    && (forall k: nat :: k < |turn.orders| ==> DoneAt(t, first + k, turn.orders[k]))
  }

  lemma OneMoreSale(s: State, first: nat, shop: Shop, t: State, turn: Turn, sale: Envelope) returns (u: State)
    requires TurnRun(s, first, shop.productOf, t, turn) && (forall i :: i in s.attempts ==> i < first)
    requires sale.Sale? && !turn.threw
    ensures TurnRun(s, first, shop.productOf, u, TurnOn(turn, shop, sale))
  {
    u := FillIsARun(s, t, first + |turn.orders|, sale.order, shop.account, MayWrite(shop), shop.productOf(sale.order), sale.answer, sale.claimedAt);
    var next := TurnOn(turn, shop, sale);
    var made := PlaceOrder(shop.productOf(sale.order), sale.answer);
    OneMoreGone(s, first, shop.productOf, t, turn, u, sale.order, FilledBy(t.ledger, sale.order, MayWrite(shop), made), next.ledger,
                if Asks(t.ledger, sale.order, MayWrite(shop)) then Created(made) else []);
  }

  lemma OneMoreGone(s: State, first: nat, productOf: OrderId -> ProductNumber, t: State, turn: Turn, u: State,
                    order: OrderId, filled: Filled, ledger: Ledger, orders: seq<Placed>)
    requires TurnRun(s, first, productOf, t, turn) && (forall i :: i in s.attempts ==> i < first) && Leads(s, u)
    requires Gone(t, u, first + |turn.orders|, order, productOf(order), filled, ledger, orders)
    ensures TurnRun(s, first, productOf, u, Turn(turn.orders + [order], turn.told + Answering(order, filled), filled.Throws?, ledger))
  {
    var all := turn.orders + [order];
    ToldOneMore(t, u, first, |turn.orders|, order, filled);
    forall k: nat | k < |all| ensures DoneAt(u, first + k, all[k]) {
      assert k < |turn.orders| ==> DoneAt(t, first + k, turn.orders[k]);
    }
  }

  lemma ToldOneMore(s: State, t: State, first: nat, count: nat, order: OrderId, filled: Filled)
    requires first + count !in s.attempts && first + count in t.attempts
    requires t.attempts == s.attempts[first + count := t.attempts[first + count]]
    requires t.attempts[first + count].order == order && Comes(filled, t.attempts[first + count].phase)
    ensures Told(t, first, count + 1) == Told(s, first, count) + Answering(order, filled)
  {
    ToldBefore(s, t, first, count);
  }

  /** A turn is one run of the machine, attempt after attempt: one at each order that was filled,
      each replying what the gateway was told, and leaving the ledger the turn leaves. Those are
      all the orders drawn, or those up to one that throws. */
  lemma {:induction false} TurnIsARun(s: State, first: nat, shop: Shop, envelopes: seq<Envelope>) returns (t: State)
    requires OfTheirProducts(s, shop.productOf) && forall i :: i in s.attempts ==> i < first
    ensures TurnRun(s, first, shop.productOf, t, TurnOf(s.ledger, shop, envelopes))
    ensures var turn := TurnOf(s.ledger, shop, envelopes);
            turn.orders <= Sales(envelopes) && (!turn.threw ==> turn.orders == Sales(envelopes))
  {
    if envelopes == [] {
      LeadsNowhere(s);
      t := s;
    } else {
      var init, last := envelopes[..|envelopes| - 1], envelopes[|envelopes| - 1];
      t := TurnIsARun(s, first, shop, init);
      var turn := TurnOf(s.ledger, shop, init);
      if last.Sale? && !turn.threw {
        t := OneMoreSale(s, first, shop, t, turn, last);
      }
    }
  }
}

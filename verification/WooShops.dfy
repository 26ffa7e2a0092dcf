/** One-time grants, connections and the ledger of placed orders: one specification on finite
    maps, and the two stores held to it. */
module WooShops {
  import opened Basics

  type Token = string
  type OrderId = string
  type Instant = int

  datatype Grant = Grant(token: Token, accountId: string, shopUrl: string, startedAt: Instant, expiresAt: Instant)

  datatype Connection = Connection(accountId: string, shopUrl: string, consumerKey: string, consumerSecret: string,
                                   permissions: string, connectedAt: Instant)

  datatype Placed = Placed(id: string, number: string)

  datatype Row = Row(accountId: string, attemptedAt: Instant, placed: Option<Placed>)

  datatype Claim = Ours | AlreadyPlaced(placed: Placed) | Unknown(attemptedAt: Instant)

  type Grants = map<Token, Grant>
  type Ledger = map<OrderId, Row>

  // ---------------------------------------------------------------------------------------
  // The specification.

  /** The grant a spend hands back: one that is there and not yet at its expiry. */
  function SpendAnswer(held: Grants, token: Token, now: Instant): Option<Grant> {
    if token in held && now < held[token].expiresAt then Some(held[token]) else None
  }

  function AfterSweep(held: Grants, now: Instant): Grants {
    map t | t in held && now <= held[t].expiresAt :: held[t]
  }

  function ClaimAnswer(ledger: Ledger, order: OrderId): Claim {
    if order !in ledger then Ours
    else match ledger[order].placed
      case Some(placed) => AlreadyPlaced(placed)
      case None => Unknown(ledger[order].attemptedAt)
  }

  function AfterClaim(ledger: Ledger, account: string, order: OrderId, now: Instant): Ledger {
    if order in ledger then ledger else ledger[order := Row(account, now, None)]
  }

  function AfterRecord(ledger: Ledger, order: OrderId, placed: Placed): Ledger {
    if order in ledger then ledger[order := ledger[order].(placed := Some(placed))] else ledger
  }

  function AfterRelease(ledger: Ledger, order: OrderId): Ledger {
    if order in ledger && ledger[order].placed.None? then ledger - {order} else ledger
  }

  // ---------------------------------------------------------------------------------------
  // Entries in the order they were first inserted, which is what a JavaScript Map keeps.

  ghost predicate Distinct(entries: seq<Grant>) {
    forall i, j :: 0 <= i < j < |entries| ==> entries[i].token != entries[j].token
  }

  ghost function AsMap(entries: seq<Grant>): (held: Grants)
    requires Distinct(entries)
    ensures forall g :: g in entries <==> g.token in held && held[g.token] == g
    ensures forall t :: t in held <==> exists i :: 0 <= i < |entries| && entries[i].token == t
  {
    map g | g in entries :: g.token := g
  }

  lemma SameMap(entries: seq<Grant>, held: Grants)
    requires Distinct(entries)
    requires forall g :: g in entries ==> g.token in held && held[g.token] == g
    requires forall t :: t in held ==> held[t] in entries && held[t].token == t
    ensures AsMap(entries) == held
  {
    forall t | t in AsMap(entries) ensures t in held && held[t] == AsMap(entries)[t] {
      var i :| 0 <= i < |entries| && entries[i].token == t;
      assert entries[i] in entries;
    }
    forall t | t in held ensures t in AsMap(entries) { assert held[t] in entries; }
  }

  lemma AppendIsMap(entries: seq<Grant>, g: Grant)
    requires Distinct(entries) && g.token !in AsMap(entries)
    ensures Distinct(entries + [g]) && AsMap(entries + [g]) == AsMap(entries)[g.token := g]
  {
    SameMap(entries + [g], AsMap(entries)[g.token := g]);
  }

  lemma PutIsMap(entries: seq<Grant>, i: nat, g: Grant)
    requires Distinct(entries) && i < |entries| && entries[i].token == g.token
    ensures Distinct(entries[i := g]) && AsMap(entries[i := g]) == AsMap(entries)[g.token := g]
  {
    var held := AsMap(entries)[g.token := g];
    forall t | t in held ensures held[t] in entries[i := g] {
      if t == g.token { assert entries[i := g][i] == g; }
      else {
        var j :| 0 <= j < |entries| && entries[j].token == t;
        assert entries[j] in entries && entries[i := g][j] == entries[j];
      }
    }
    SameMap(entries[i := g], held);
  }

  lemma DropIsDistinct(entries: seq<Grant>, i: nat)
    requires Distinct(entries) && i < |entries|
    ensures Distinct(entries[..i] + entries[i + 1..])
    ensures forall g :: g in entries[..i] + entries[i + 1..] <==> g in entries && g.token != entries[i].token
  {
    var left := entries[..i] + entries[i + 1..];
    forall j | 0 <= j < |left| ensures left[j] == entries[if j < i then j else j + 1] { }
    forall g | g in entries && g.token != entries[i].token ensures g in left {
      var j :| 0 <= j < |entries| && entries[j] == g;
      assert g == left[if j < i then j else j - 1];
    }
  }

  lemma DropIsMap(entries: seq<Grant>, i: nat)
    requires Distinct(entries) && i < |entries|
    ensures Distinct(entries[..i] + entries[i + 1..])
    ensures AsMap(entries[..i] + entries[i + 1..]) == AsMap(entries) - {entries[i].token}
  {
    DropIsDistinct(entries, i);
    SameMap(entries[..i] + entries[i + 1..], AsMap(entries) - {entries[i].token});
  }

  function UnsweptAt(now: Instant): Grant -> bool { (g: Grant) => now <= g.expiresAt }

  function Is(token: Token): Grant -> bool { (g: Grant) => g.token == token }

  function IsNot(token: Token): Grant -> bool { (g: Grant) => g.token != token }

  /** Every entry satisfying `keep`, in order: a `DELETE ... WHERE` and what it leaves. */
  function Kept(entries: seq<Grant>, keep: Grant -> bool): seq<Grant> {
    if entries == [] then [] else (if keep(entries[0]) then [entries[0]] else []) + Kept(entries[1..], keep)
  }

  lemma {:induction false} KeptHas(entries: seq<Grant>, keep: Grant -> bool)
    ensures forall g :: g in Kept(entries, keep) <==> g in entries && keep(g)
    ensures Distinct(entries) ==> Distinct(Kept(entries, keep))
    ensures |Kept(entries, keep)| <= |entries|
  {
    if entries != [] {
      var rest := Kept(entries[1..], keep);
      KeptHas(entries[1..], keep);
      assert entries == [entries[0]] + entries[1..];
      assert Distinct(entries) ==> forall g :: g in rest ==> g.token != entries[0].token;
    }
  }

  lemma KeptFirst(entries: seq<Grant>, i: nat, keep: Grant -> bool, before: seq<Grant>)
    requires i < |entries|
    ensures before + Kept(entries[i..], keep)
              == (if keep(entries[i]) then before + [entries[i]] else before) + Kept(entries[i + 1..], keep)
  {
    assert entries[i..][1..] == entries[i + 1..];
  }

  lemma KeptIsMap(entries: seq<Grant>, keep: Grant -> bool, held: Grants)
    requires Distinct(entries)
    requires forall t :: t in held <==> t in AsMap(entries) && keep(AsMap(entries)[t])
    requires forall t :: t in held ==> held[t] == AsMap(entries)[t]
    ensures Distinct(Kept(entries, keep)) && AsMap(Kept(entries, keep)) == held
    ensures |Kept(entries, keep)| <= |entries|
  {
    KeptHas(entries, keep);
    SameMap(Kept(entries, keep), held);
  }

  ghost predicate IsNewestOf(held: Grants, account: string, answer: Option<Grant>) {
    match answer
    case None => forall t :: t in held ==> held[t].accountId != account
    case Some(g) =>
      && g.token in held && held[g.token] == g && g.accountId == account
      && forall t :: t in held && held[t].accountId == account ==> held[t].startedAt <= g.startedAt
  }

  /** Among the account's Connects begun at one instant, the one inserted last. */
  ghost predicate LaterAreOlder(entries: seq<Grant>, i: nat, account: string)
    requires i < |entries|
  {
    forall j :: i < j < |entries| && entries[j].accountId == account ==> entries[j].startedAt < entries[i].startedAt
  }

  /** The loop of a sweep: what is left of the entries, and how many went. */
  method Sweep(entries: seq<Grant>, now: Instant) returns (kept: seq<Grant>, gone: nat)
    ensures kept == Kept(entries, UnsweptAt(now)) && gone == |entries| - |kept|
  {
    kept, gone := [], 0;
    var i := 0;
    while i < |entries|
      invariant 0 <= i <= |entries|
      invariant kept + Kept(entries[i..], UnsweptAt(now)) == Kept(entries, UnsweptAt(now))
      invariant gone == i - |kept|
    {
      KeptFirst(entries, i, UnsweptAt(now), kept);
      if entries[i].expiresAt < now {
        gone := gone + 1;
      } else {
        kept := kept + [entries[i]];
      }
      i := i + 1;
    }
  }

  /** The store that is three maps in memory. */
  class MemoryWooShops {
    var grants: seq<Grant>
    var shops: map<string, Connection>
    var orders: Ledger

    ghost predicate Valid() reads this { Distinct(grants) }

    ghost function Held(): Grants reads this requires Valid() { AsMap(grants) }

    constructor ()
      ensures Valid() && Held() == map[] && shops == map[] && orders == map[]
    {
      grants, shops, orders := [], map[], map[];
    }

    method BeginGrant(grant: Grant)
      requires Valid()
      modifies this`grants
      ensures Valid() && Held() == old(Held())[grant.token := grant]
    {
      var at := IndexOf(grant.token);
      match at {
        case Some(i) =>
          PutIsMap(grants, i, grant);
          grants := grants[i := grant];
        case None =>
          AppendIsMap(grants, grant);
          grants := grants + [grant];
      }
    }

    method IndexOf(token: Token) returns (at: Option<nat>)
      requires Valid()
      ensures at.Some? ==> at.value < |grants| && grants[at.value].token == token
      ensures at.None? <==> token !in Held()
    {
      var i := 0;
      while i < |grants|
        invariant 0 <= i <= |grants|
        invariant forall j :: 0 <= j < i ==> grants[j].token != token
      {
        if grants[i].token == token {
          assert grants[i] in grants;
          return Some(i);
        }
        i := i + 1;
      }
      return None;
    }

    method SpendGrant(token: Token, now: Instant) returns (spent: Option<Grant>)
      requires Valid()
      modifies this`grants
      ensures Valid() && Held() == old(Held()) - {token}
      ensures spent == SpendAnswer(old(Held()), token, now)
    {
      var at := IndexOf(token);
      match at {
        case None =>
          spent := None;
        case Some(i) =>
          var found := grants[i];
          assert found in grants;
          DropIsMap(grants, i);
          grants := grants[..i] + grants[i + 1..];
          spent := if found.expiresAt <= now then None else Some(found);
      }
    }

    method GrantFor(account: string) returns (newest: Option<Grant>)
      requires Valid()
      ensures IsNewestOf(Held(), account, newest)
      ensures newest.Some? ==> exists i :: 0 <= i < |grants| && grants[i] == newest.value && LaterAreOlder(grants, i, account)
    {
      newest := None;
      var i := 0;
      ghost var last := 0;
      while i < |grants|
        invariant 0 <= i <= |grants|
        invariant newest.None? ==> forall j :: 0 <= j < i ==> grants[j].accountId != account
        invariant newest.Some? ==> newest.value.accountId == account && 0 <= last < i && grants[last] == newest.value
        invariant newest.Some? ==> forall j :: 0 <= j < i && grants[j].accountId == account ==>
                    grants[j].startedAt <= newest.value.startedAt && (last < j ==> grants[j].startedAt < newest.value.startedAt)
      {
        if grants[i].accountId == account && (newest.None? || newest.value.startedAt <= grants[i].startedAt) {
          newest, last := Some(grants[i]), i;
        }
        i := i + 1;
      }
      if newest.Some? { assert newest.value in grants; }
    }

    method SweepGrants(now: Instant) returns (gone: nat)
      requires Valid()
      modifies this`grants
      ensures Valid() && Held() == AfterSweep(old(Held()), now)
      ensures gone == |old(grants)| - |grants|
    {
      ghost var was, before := Held(), grants;
      grants, gone := Sweep(grants, now);
      KeptIsMap(before, UnsweptAt(now), AfterSweep(was, now));
    }

    method Connect(connection: Connection)
      modifies this`shops
      ensures shops == old(shops)[connection.accountId := connection]
    {
      shops := shops[connection.accountId := connection];
    }

    method Forget(account: string)
      modifies this`shops
      ensures shops == old(shops) - {account}
    {
      shops := shops - {account};
    }

    method ClaimOrder(account: string, order: OrderId, now: Instant) returns (claim: Claim)
      modifies this`orders
      ensures claim == ClaimAnswer(old(orders), order)
      ensures orders == AfterClaim(old(orders), account, order, now)
    {
      if order !in orders {
        orders := orders[order := Row(account, now, None)];
        return Ours;
      }
      var found := orders[order];
      match found.placed {
        case Some(placed) => return AlreadyPlaced(placed);
        case None => return Unknown(found.attemptedAt);
      }
    }

    method RecordOrder(order: OrderId, placed: Placed)
      modifies this`orders
      ensures orders == AfterRecord(old(orders), order, placed)
    {
      if order in orders {
        orders := orders[order := orders[order].(placed := Some(placed))];
      }
    }

    method ReleaseOrder(order: OrderId)
      modifies this`orders
      ensures orders == AfterRelease(old(orders), order)
    {
      if order in orders && orders[order].placed.None? {
        orders := orders - {order};
      }
    }
  }

  /** One row of `cabinet_woo_orders`: the shop's two answers are two nullable columns. */
  datatype OrderRow = OrderRow(accountId: string, wooOrderId: Option<string>, wooOrderNumber: Option<string>, attemptedAt: Instant)

  function AsRow(r: OrderRow): Row {
    Row(r.accountId, r.attemptedAt,
        if r.wooOrderId.Some? && r.wooOrderNumber.Some? then Some(Placed(r.wooOrderId.value, r.wooOrderNumber.value)) else None)
  }

  /** The store in Postgres, statement by statement. */
  class PostgresWooShops {
    var grantRows: seq<Grant>
    var orderRows: map<OrderId, OrderRow>

    ghost predicate Valid() reads this {
      && Distinct(grantRows)
      && forall o :: o in orderRows ==> (orderRows[o].wooOrderId.Some? <==> orderRows[o].wooOrderNumber.Some?)
    }

    ghost function Held(): Grants reads this requires Valid() { AsMap(grantRows) }

    ghost function Orders(): Ledger reads this { map o | o in orderRows :: AsRow(orderRows[o]) }

    constructor ()
      ensures Valid() && Held() == map[] && Orders() == map[]
    {
      grantRows, orderRows := [], map[];
    }

    /** An insert: the primary key refuses a token that is already there. */
    method BeginGrant(grant: Grant) returns (inserted: bool)
      requires Valid()
      modifies this`grantRows
      ensures Valid() && inserted == (grant.token !in old(Held()))
      ensures Held() == if inserted then old(Held())[grant.token := grant] else old(Held())
    {
      inserted := !exists i :: 0 <= i < |grantRows| && grantRows[i].token == grant.token;
      if inserted {
        AppendIsMap(grantRows, grant);
        grantRows := grantRows + [grant];
      }
    }

    /** `DELETE ... WHERE token = $1 RETURNING *`, and only then a look at the clock. */
    method SpendGrant(token: Token, now: Instant) returns (spent: Option<Grant>)
      requires Valid()
      modifies this`grantRows
      ensures Valid() && Held() == old(Held()) - {token}
      ensures spent == SpendAnswer(old(Held()), token, now)
    {
      ghost var was := Held();
      var returned := Kept(grantRows, Is(token));
      ghost var before := grantRows;
      grantRows := Kept(grantRows, IsNot(token));
      KeptIsMap(before, IsNot(token), was - {token});
      KeptHas(before, Is(token));
      if returned == [] {
        forall g | g in before ensures g.token != token { assert g !in returned; }
        return None;
      }
      assert returned[0] in returned;
      spent := if returned[0].expiresAt <= now then None else Some(returned[0]);
    }

    method SweepGrants(now: Instant) returns (gone: nat)
      requires Valid()
      modifies this`grantRows
      ensures Valid() && Held() == AfterSweep(old(Held()), now)
      ensures gone == |old(grantRows)| - |grantRows|
    {
      ghost var was, before := Held(), grantRows;
      var left := Kept(grantRows, UnsweptAt(now));
      KeptIsMap(before, UnsweptAt(now), AfterSweep(was, now));
      gone := |grantRows| - |left|;
      grantRows := left;
    }

    /** The first statement of a claim: insert, and do nothing where the order has a row. */
    method InsertClaim(account: string, order: OrderId, now: Instant) returns (inserted: bool)
      requires Valid()
      modifies this`orderRows
      ensures Valid() && inserted == (order !in old(Orders()))
      ensures Orders() == AfterClaim(old(Orders()), account, order, now)
    {
      inserted := order !in orderRows;
      if inserted {
        orderRows := orderRows[order := OrderRow(account, None, None, now)];
      }
    }

    /** The second: read the row that was in the way. */
    method SelectClaim(order: OrderId) returns (claim: Claim)
      requires Valid()
      ensures claim == ClaimAnswer(Orders(), order)
    {
      if order !in orderRows {
        return Ours;
      }
      var row := orderRows[order];
      if row.wooOrderId.Some? && row.wooOrderNumber.Some? {
        return AlreadyPlaced(Placed(row.wooOrderId.value, row.wooOrderNumber.value));
      }
      return Unknown(row.attemptedAt);
    }

    /** With nothing between its two statements, a claim here is the memory store's. */
    method ClaimOrder(account: string, order: OrderId, now: Instant) returns (claim: Claim)
      requires Valid()
      modifies this`orderRows
      ensures Valid() && claim == ClaimAnswer(old(Orders()), order)
      ensures Orders() == AfterClaim(old(Orders()), account, order, now)
    {
      var inserted := InsertClaim(account, order, now);
      if inserted {
        return Ours;
      }
      claim := SelectClaim(order);
    }

    method RecordOrder(order: OrderId, placed: Placed)
      requires Valid()
      modifies this`orderRows
      ensures Valid() && Orders() == AfterRecord(old(Orders()), order, placed)
    {
      if order in orderRows {
        orderRows := orderRows[order := orderRows[order].(wooOrderId := Some(placed.id), wooOrderNumber := Some(placed.number))];
      }
    }

    method ReleaseOrder(order: OrderId)
      requires Valid()
      modifies this`orderRows
      ensures Valid() && Orders() == AfterRelease(old(Orders()), order)
    {
      if order in orderRows && orderRows[order].wooOrderId.None? {
        orderRows := orderRows - {order};
      }
    }
  }
}

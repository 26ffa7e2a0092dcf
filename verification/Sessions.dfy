/** Who a request is from, when its cookie header may carry several values under the session
    cookie's name and any number of them may be live sessions. */
module Sessions {
  import opened Basics
  import opened Characters

  type Value = string
  type SessionToken = string

  datatype Person = Person(id: string, email: string, merchantId: Option<string>, merchantKey: Option<string>)

  // ---------------------------------------------------------------------------------------
  // Reading the header.

  predicate IsSpace(c: char) { IsSpaceCode(c as int) }

  /** The index of the first `c`, or the length where there is none. */
  function IndexOf(s: string, c: char): nat { if s == "" || s[0] == c then 0 else 1 + IndexOf(s[1..], c) }

  lemma {:induction false} IndexOfIsFirst(s: string, c: char)
    ensures IndexOf(s, c) <= |s|
    ensures IndexOf(s, c) < |s| ==> s[IndexOf(s, c)] == c
    ensures forall i :: 0 <= i < IndexOf(s, c) ==> s[i] != c
  {
    if s != "" && s[0] != c { IndexOfIsFirst(s[1..], c); }
  }

  /** `s.split(";")`. */
  function Split(s: string): seq<string>
    decreases |s|
  {
    IndexOfIsFirst(s, ';');
    var at := IndexOf(s, ';');
    if at == |s| then [s] else [s[..at]] + Split(s[at + 1..])
  }

  /** The value a `name=value` pair carries under the session cookie's name, if it does. */
  function ValueIn(pair: string, name: string): Option<Value> {
    IndexOfIsFirst(pair, '=');
    var at := IndexOf(pair, '=');
    if at == |pair| || Trim(pair[..at], IsSpace) != name then None
    else if Trim(pair[at + 1..], IsSpace) == "" then None
    else Some(Trim(pair[at + 1..], IsSpace))
  }

  /** Every value, once each, in the order first met. */
  function ValuesOf(pairs: seq<string>, name: string): seq<Value> {
    if pairs == [] then []
    else
      var before := ValuesOf(pairs[..|pairs| - 1], name);
      match ValueIn(pairs[|pairs| - 1], name)
      case None => before
      case Some(v) => if v in before then before else before + [v]
  }

  method ValuesIn(cookieHeader: Option<string>, name: string) returns (values: seq<Value>)
    ensures values == if cookieHeader.None? then [] else ValuesOf(Split(cookieHeader.value), name)
  {
    if cookieHeader.None? { return []; }
    var pairs := Split(cookieHeader.value);
    values := [];
    var i := 0;
    while i < |pairs|
      invariant 0 <= i <= |pairs|
      invariant values == ValuesOf(pairs[..i], name)
    {
      assert pairs[..i + 1][..i] == pairs[..i];
      var found := ValueIn(pairs[i], name);
      if found.Some? && found.value !in values { values := values + [found.value]; }
      i := i + 1;
    }
    assert pairs[..i] == pairs;
  }

  lemma {:induction false} ValuesAreTheirs(pairs: seq<string>, name: string)
    ensures forall v :: v in ValuesOf(pairs, name) <==> exists p :: p in pairs && ValueIn(p, name) == Some(v)
  {
    if pairs != [] {
      var init := pairs[..|pairs| - 1];
      ValuesAreTheirs(init, name);
      assert pairs == init + [pairs[|pairs| - 1]];
    }
  }

  lemma FirstIsFirst(s: string, c: char, at: nat)
    requires at < |s| && s[at] == c && forall i :: 0 <= i < at ==> s[i] != c
    ensures IndexOf(s, c) == at
  {
    IndexOfIsFirst(s, c);
  }

  lemma SplitAt(s: string, at: nat)
    requires at < |s| && s[at] == ';' && forall i :: 0 <= i < at ==> s[i] != ';'
    ensures Split(s) == [s[..at]] + Split(s[at + 1..])
  {
    FirstIsFirst(s, ';', at);
  }

  /** A header put together with ";" is the pairs of its two halves. */
  lemma {:induction false} SplitJoined(a: string, b: string)
    ensures Split(a + (";" + b)) == Split(a) + Split(b)
    decreases |a|
  {
    var whole, at := a + (";" + b), IndexOf(a, ';');
    IndexOfIsFirst(a, ';');
    assert whole[..at] == a[..at];
    forall i | 0 <= i < at ensures whole[i] != ';' { assert whole[i] == a[i]; }
    assert whole[at] == ';';
    SplitAt(whole, at);
    if at == |a| {
      assert whole[at + 1..] == b;
      assert Split(a) == [a] && a[..at] == a;
    } else {
      assert whole[at + 1..] == a[at + 1..] + (";" + b);
      SplitJoined(a[at + 1..], b);
      SplitAt(a, at);
    }
  }

  // ---------------------------------------------------------------------------------------
  // Who it is.

  /** `tokenOf` is the component's check of its own signature over a value; `live` are the
      sessions it holds. */
  datatype Component = Component(tokenOf: Value -> Option<SessionToken>, live: map<SessionToken, Person>)

  predicate IsLive(c: Component, v: Value) { c.tokenOf(v).Some? && c.tokenOf(v).value in c.live }

  datatype Live = Live(value: Value, token: SessionToken, person: Person)

  function TokensIn(c: Component, values: seq<Value>): set<SessionToken> {
    set v | v in values && IsLive(c, v) :: c.tokenOf(v).value
  }

  /** The live ones in a header, as `liveOnesIn` lists them. */
  function LiveOf(c: Component, values: seq<Value>): seq<Live> {
    if values == [] then []
    else
      var v := values[|values| - 1];
      LiveOf(c, values[..|values| - 1]) + if IsLive(c, v) then [Live(v, c.tokenOf(v).value, c.live[c.tokenOf(v).value])] else []
  }

  lemma {:induction false} LiveOfHas(c: Component, values: seq<Value>)
    ensures forall one :: one in LiveOf(c, values) <==>
              one.value in values && IsLive(c, one.value) && c.tokenOf(one.value) == Some(one.token) && c.live[one.token] == one.person
  {
    if values != [] {
      LiveOfHas(c, values[..|values| - 1]);
      assert values == values[..|values| - 1] + [values[|values| - 1]];
    }
  }

  lemma LiveOfTokens(c: Component, values: seq<Value>)
    ensures (set one | one in LiveOf(c, values) :: one.token) == TokensIn(c, values)
  {
    LiveOfHas(c, values);
    forall v | v in values && IsLive(c, v)
      ensures Live(v, c.tokenOf(v).value, c.live[c.tokenOf(v).value]) in LiveOf(c, values) { }
  }

  class Identity {
    const sessionCookie: string
    const tokenOf: Value -> Option<SessionToken>
    var live: map<SessionToken, Person>

    constructor (sessionCookie: string, tokenOf: Value -> Option<SessionToken>, live: map<SessionToken, Person>)
      ensures this.sessionCookie == sessionCookie && this.tokenOf == tokenOf && this.live == live
    {
      this.sessionCookie, this.tokenOf, this.live := sessionCookie, tokenOf, live;
    }

    function State(): Component reads this { Component(tokenOf, live) }

    method LiveOnesIn(cookieHeader: Option<string>) returns (found: seq<Live>)
      ensures found == LiveOf(State(), Carried(cookieHeader, sessionCookie))
    {
      var values := ValuesIn(cookieHeader, sessionCookie);
      found := [];
      var i := 0;
      while i < |values|
        invariant 0 <= i <= |values|
        invariant found == LiveOf(State(), values[..i])
      {
        assert values[..i + 1][..i] == values[..i];
        var token := tokenOf(values[i]);
        if token.Some? && token.value in live {
          found := found + [Live(values[i], token.value, live[token.value])];
        }
        i := i + 1;
      }
      assert values[..i] == values;
    }

    method EndAll(found: seq<Live>)
      modifies this`live
      ensures live == old(live) - set one | one in found :: one.token
    {
      var i := 0;
      while i < |found|
        invariant 0 <= i <= |found|
        invariant live == old(live) - set j | 0 <= j < i :: found[j].token
      {
        live := live - {found[i].token};
        i := i + 1;
      }
      assert (set j | 0 <= j < |found| :: found[j].token) == set one | one in found :: one.token;
    }

    method WhoIs(cookieHeader: Option<string>) returns (who: Option<Person>)
      modifies this`live
      ensures who == AnswerTo(old(State()), cookieHeader, sessionCookie)
      ensures live == if Conflict(old(State()), cookieHeader, sessionCookie)
                      then old(live) - TokensIn(old(State()), Carried(cookieHeader, sessionCookie)) else old(live)
    {
      var found := LiveOnesIn(cookieHeader);
      var owners := set one | one in found :: one.person.id;
      LiveOfTokens(State(), Carried(cookieHeader, sessionCookie));
      OwnersCount(found, owners);
      if |found| == 0 {
        return None;
      }
      if |owners| == 1 {
        return Some(found[0].person);
      }
      EndAll(found);
      return None;
    }

    method SignOut(cookieHeader: Option<string>) returns (ended: nat)
      modifies this`live
      ensures live == old(live) - TokensIn(old(State()), Carried(cookieHeader, sessionCookie))
      ensures ended == |LiveOf(old(State()), Carried(cookieHeader, sessionCookie))|
    {
      var found := LiveOnesIn(cookieHeader);
      LiveOfTokens(State(), Carried(cookieHeader, sessionCookie));
      EndAll(found);
      ended := |found|;
    }
  }

  lemma OnlyMember<T>(s: set<T>, a: T, b: T)
    requires |s| == 1 && a in s && b in s
    ensures a == b
  {
    assert |s - {a}| == 0;
  }

  /** Counting identifiers tells one person from several. */
  lemma OwnersCount(found: seq<Live>, owners: set<string>)
    requires owners == set one | one in found :: one.person.id
    ensures found != [] ==> (|owners| == 1 <==> SamePerson(found))
  {
    if found != [] {
      var first := found[0].person.id;
      assert found[0].person.id in owners;
      if |owners| == 1 {
        forall a, b | a in found && b in found ensures a.person.id == b.person.id {
          assert a.person.id in owners && b.person.id in owners;
          OnlyMember(owners, a.person.id, b.person.id);
        }
      }
      if SamePerson(found) {
        assert owners == {first};
      }
    }
  }

  function PairsIn(cookieHeader: Option<string>): seq<string> { if cookieHeader.None? then [] else Split(cookieHeader.value) }

  function Carried(cookieHeader: Option<string>, name: string): seq<Value> {
    ValuesOf(PairsIn(cookieHeader), name)
  }

  ghost predicate SamePerson(found: seq<Live>) {
    forall a, b :: a in found && b in found ==> a.person.id == b.person.id
  }

  ghost predicate Conflict(c: Component, cookieHeader: Option<string>, name: string) {
    !SamePerson(LiveOf(c, Carried(cookieHeader, name)))
  }

  /** The one person every live session in the header belongs to, if there is one, as the first
      of those sessions has that person. */
  ghost function AnswerTo(c: Component, cookieHeader: Option<string>, name: string): (who: Option<Person>)
    ensures who.Some? <==> LiveOf(c, Carried(cookieHeader, name)) != [] && !Conflict(c, cookieHeader, name)
    ensures who.Some? ==> forall one :: one in LiveOf(c, Carried(cookieHeader, name)) ==> one.person.id == who.value.id
  {
    var found := LiveOf(c, Carried(cookieHeader, name));
    if found != [] && SamePerson(found) then Some(found[0].person) else None
  }

  // ---------------------------------------------------------------------------------------

  /** Nothing between two ";" of this text is a live session. */
  ghost predicate Junk(c: Component, text: string, name: string) {
    forall p :: p in Split(text) ==> !Tells(c, p, name)
  }

  /** One more pair may add one more live session, and only one not there yet. */
  lemma OnePairMore(c: Component, pairs: seq<string>, pair: string, name: string)
    ensures LiveOf(c, ValuesOf(pairs + [pair], name))
              == LiveOf(c, ValuesOf(pairs, name))
                 + match ValueIn(pair, name)
                   case None => []
                   case Some(v) => if IsLive(c, v) && v !in ValuesOf(pairs, name) then [Live(v, c.tokenOf(v).value, c.live[c.tokenOf(v).value])] else []
  {
    var before := ValuesOf(pairs, name);
    assert (pairs + [pair])[..|pairs|] == pairs;
    match ValueIn(pair, name)
    case None =>
    case Some(v) => assert (before + [v])[..|before|] == before;
  }

  predicate Tells(c: Component, pair: string, name: string) { ValueIn(pair, name).Some? && IsLive(c, ValueIn(pair, name).value) }

  /** The pairs that carry a live session. */
  function Telling(c: Component, pairs: seq<string>, name: string): seq<string> {
    if pairs == [] then []
    else
      var last := pairs[|pairs| - 1];
      Telling(c, pairs[..|pairs| - 1], name) + if Tells(c, last, name) then [last] else []
  }

  lemma {:induction false} TellingHas(c: Component, pairs: seq<string>, name: string)
    ensures forall p :: p in Telling(c, pairs, name) <==> p in pairs && Tells(c, p, name)
  {
    if pairs != [] {
      TellingHas(c, pairs[..|pairs| - 1], name);
      assert pairs == pairs[..|pairs| - 1] + [pairs[|pairs| - 1]];
    }
  }

  lemma {:induction false} TellingJoined(c: Component, a: seq<string>, b: seq<string>, name: string)
    ensures Telling(c, a + b, name) == Telling(c, a, name) + Telling(c, b, name)
  {
    if b == [] {
      assert a + b == a;
    } else {
      var init, last := b[..|b| - 1], b[|b| - 1];
      assert (a + b)[..|a + b| - 1] == a + init && (a + b)[|a + b| - 1] == last;
      TellingJoined(c, a, init, name);
    }
  }

  lemma {:induction false} JunkTellsNothing(c: Component, junk: seq<string>, name: string)
    requires forall p :: p in junk ==> !Tells(c, p, name)
    ensures Telling(c, junk, name) == []
  {
    if junk != [] { JunkTellsNothing(c, junk[..|junk| - 1], name); }
  }

  /** The live sessions are those of the pairs that carry one, in the same order. */
  lemma {:induction false} TellingIsEnough(c: Component, pairs: seq<string>, name: string)
    ensures LiveOf(c, ValuesOf(pairs, name)) == LiveOf(c, ValuesOf(Telling(c, pairs, name), name))
  {
    if pairs != [] {
      var init, last := pairs[..|pairs| - 1], pairs[|pairs| - 1];
      var told := Telling(c, init, name);
      assert pairs == init + [last];
      TellingIsEnough(c, init, name);
      if Tells(c, last, name) {
        TellingCarriesTheLive(c, init, name, ValueIn(last, name).value);
        OneMoreTells(c, init, told, last, name);
        assert Telling(c, pairs, name) == told + [last];
      } else {
        OnePairMore(c, init, last, name);
        assert Telling(c, pairs, name) == told;
      }
    }
  }

  lemma OneMoreTells(c: Component, pairs: seq<string>, told: seq<string>, last: string, name: string)
    requires LiveOf(c, ValuesOf(pairs, name)) == LiveOf(c, ValuesOf(told, name)) && Tells(c, last, name)
    requires ValueIn(last, name).value in ValuesOf(pairs, name) <==> ValueIn(last, name).value in ValuesOf(told, name)
    ensures LiveOf(c, ValuesOf(pairs + [last], name)) == LiveOf(c, ValuesOf(told + [last], name))
  {
    OnePairMore(c, pairs, last, name);
    OnePairMore(c, told, last, name);
  }

  lemma TellingCarriesTheLive(c: Component, pairs: seq<string>, name: string, v: Value)
    requires IsLive(c, v)
    ensures v in ValuesOf(pairs, name) <==> v in ValuesOf(Telling(c, pairs, name), name)
  {
    TellingHas(c, pairs, name);
    ValuesAreTheirs(pairs, name);
    ValuesAreTheirs(Telling(c, pairs, name), name);
    if p :| p in pairs && ValueIn(p, name) == Some(v) { assert p in Telling(c, pairs, name); }
  }

  /** Two headers are one to the cabinet: it finds the same live sessions in the same order, so
      it answers with the same person and ends the same sessions. */
  ghost predicate SameTo(c: Component, one: Option<string>, other: Option<string>, name: string) {
    && LiveOf(c, Carried(one, name)) == LiveOf(c, Carried(other, name))
    && AnswerTo(c, one, name) == AnswerTo(c, other, name)
    && (Conflict(c, one, name) <==> Conflict(c, other, name))
    && TokensIn(c, Carried(one, name)) == TokensIn(c, Carried(other, name))
  }

  /** Only the pairs that carry a live session count, whatever else a header holds and wherever. */
  lemma OnlyLivePairsCount(c: Component, one: Option<string>, other: Option<string>, name: string)
    requires Telling(c, PairsIn(one), name) == Telling(c, PairsIn(other), name)
    ensures SameTo(c, one, other, name)
  {
    TellingIsEnough(c, PairsIn(one), name);
    TellingIsEnough(c, PairsIn(other), name);
    LiveOfTokens(c, Carried(one, name));
    LiveOfTokens(c, Carried(other, name));
  }

  /** So values that are not live sessions may be planted, however many, in the middle of a
      header, before it, after it or alone: the header reads as it does without them, and alone
      as no header at all. */
  lemma PlantedValuesChangeNothing(c: Component, a: string, junk: string, b: string, name: string)
    requires Junk(c, junk, name)
    ensures SameTo(c, Some(a + (";" + (junk + (";" + b)))), Some(a + (";" + b)), name)
    ensures SameTo(c, Some(junk + (";" + b)), Some(b), name)
    ensures SameTo(c, Some(a + (";" + junk)), Some(a), name)
    ensures SameTo(c, Some(junk), None, name) && AnswerTo(c, Some(junk), name) == None
  {
    var x, y, z := Split(a), Split(junk), Split(b);
    JunkTellsNothing(c, y, name);
    SplitJoined(a, junk + (";" + b));
    SplitJoined(junk, b);
    SplitJoined(a, b);
    SplitJoined(a, junk);
    Planted(c, Some(a + (";" + (junk + (";" + b)))), Some(a + (";" + b)), x, y, z, name);
    Planted(c, Some(junk + (";" + b)), Some(b), [], y, z, name);
    Planted(c, Some(a + (";" + junk)), Some(a), x, y, [], name);
    Planted(c, Some(junk), None, [], y, [], name);
  }

  lemma Planted(c: Component, planted: Option<string>, clean: Option<string>, a: seq<string>, junk: seq<string>, b: seq<string>, name: string)
    requires PairsIn(planted) == a + (junk + b) && PairsIn(clean) == a + b && Telling(c, junk, name) == []
    ensures SameTo(c, planted, clean, name)
  {
    JunkMayGo(c, a, junk, b, name);
    OnlyLivePairsCount(c, planted, clean, name);
  }

  lemma JunkMayGo(c: Component, a: seq<string>, junk: seq<string>, b: seq<string>, name: string)
    requires Telling(c, junk, name) == []
    ensures Telling(c, a + (junk + b), name) == Telling(c, a + b, name)
  {
    var rest := junk + b;
    JunkFirstMayGo(c, junk, b, name);
    TellingJoined(c, a, rest, name);
    TellingJoined(c, a, b, name);
  }

  lemma JunkFirstMayGo(c: Component, junk: seq<string>, b: seq<string>, name: string)
    requires Telling(c, junk, name) == []
    ensures Telling(c, junk + b, name) == Telling(c, b, name)
  {
    TellingJoined(c, junk, b, name);
    assert [] + Telling(c, b, name) == Telling(c, b, name);
  }

  /** Once the sessions in a header are ended, by a conflict or a sign-out, the same header
      again carries no live session and signs in nobody. */
  lemma EndedHeaderIsNobody(c: Component, cookieHeader: Option<string>, name: string)
    ensures var after := c.(live := c.live - TokensIn(c, Carried(cookieHeader, name)));
            && TokensIn(after, Carried(cookieHeader, name)) == {}
            && AnswerTo(after, cookieHeader, name) == None
            && (forall v :: IsLive(c, v) && !IsLive(after, v) ==> exists w :: w in Carried(cookieHeader, name) && c.tokenOf(w) == c.tokenOf(v))
  {
    var after := c.(live := c.live - TokensIn(c, Carried(cookieHeader, name)));
    forall v | v in Carried(cookieHeader, name) ensures !IsLive(after, v) {
      if IsLive(c, v) { assert c.tokenOf(v).value in TokensIn(c, Carried(cookieHeader, name)); }
    }
    NoneLive(after, Carried(cookieHeader, name));
  }

  lemma {:induction false} NoneLive(c: Component, values: seq<Value>)
    requires forall v :: v in values ==> !IsLive(c, v)
    ensures LiveOf(c, values) == []
  {
    if values != [] { NoneLive(c, values[..|values| - 1]); }
  }
}

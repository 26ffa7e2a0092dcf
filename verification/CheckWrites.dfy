/** Checks written as a scan goes: the runner's phases each hand over what they completed, and
    the job writes whatever is left before it commits. */
module CheckWrites {
  type CheckId = int

  datatype Check = Check(id: CheckId, result: string)

  /** One `emitChecks`: everything evaluated at that point, and the ids the phase completes. */
  datatype Phase = Phase(evaluated: seq<Check>, ids: set<CheckId>)

  datatype Upsert = Written | Fenced | Lost

  datatype Outcome = Committed | Skipped | Failed

  function Ids(checks: seq<Check>): set<CheckId> { set c | c in checks :: c.id }

  ghost predicate DistinctIds(checks: seq<Check>) {
    forall i, j :: 0 <= i < j < |checks| ==> checks[i].id != checks[j].id
  }

  function Without(checks: seq<Check>, done: set<CheckId>): seq<Check> {
    if checks == [] then [] else (if checks[0].id in done then [] else [checks[0]]) + Without(checks[1..], done)
  }

  /** What a phase hands over, given what has been handed over before. */
  function Completed(p: Phase, done: set<CheckId>): seq<Check> {
    Without(p.evaluated, done + (Ids(p.evaluated) - p.ids))
  }

  function Emitted(phases: seq<Phase>, done: set<CheckId>): seq<Check> {
    if phases == [] then []
    else
      var now := Completed(phases[0], done);
      now + Emitted(phases[1..], done + Ids(now))
  }

  /** Every upsert of a run that is never fenced, in order. */
  function AllWrites(phases: seq<Phase>, evaluation: seq<Check>): seq<Check> {
    var early := Emitted(phases, {});
    early + Without(evaluation, Ids(early))
  }

  lemma IdsAppend(a: seq<Check>, b: seq<Check>)
    ensures Ids(a + b) == Ids(a) + Ids(b)
  {
    forall i | i in Ids(a) + Ids(b) ensures i in Ids(a + b) {
      var c :| (c in a || c in b) && c.id == i;
      assert c in a + b;
    }
  }

  /** Where a list of checks has got to: all that is written by then, and the last thing the
      repository said. */
  datatype Progress = Progress(writes: seq<Check>, said: Upsert)

  /** The list handed to the repository on top of what is written already, up to the first check
      it refuses. */
  function Upserted(answers: nat -> Upsert, writes: seq<Check>, checks: seq<Check>): Progress
    decreases |checks|
  {
    if checks == [] then Progress(writes, Written)
    else if answers(|writes|) != Written then Progress(writes, answers(|writes|))
    else Upserted(answers, writes + [checks[0]], checks[1..])
  }

  /** So many checks of the list, from its first; all of them, or those before the refusal. */
  lemma {:induction false} UpsertedMeans(answers: nat -> Upsert, writes: seq<Check>, checks: seq<Check>)
    ensures var p := Upserted(answers, writes, checks);
            && writes <= p.writes <= writes + checks
            && (forall n: nat :: |writes| <= n < |p.writes| ==> answers(n) == Written)
            && (p.said == Written <==> p.writes == writes + checks)
            && (p.said != Written ==> p.said == answers(|p.writes|))
    decreases |checks|
  {
    if checks != [] && answers(|writes|) == Written {
      assert writes + [checks[0]] + checks[1..] == writes + checks;
      UpsertedMeans(answers, writes + [checks[0]], checks[1..]);
    }
  }

  /** One list after another is one list: the second is begun where the first goes through. */
  lemma {:induction false} UpsertedTogether(answers: nat -> Upsert, writes: seq<Check>, a: seq<Check>, b: seq<Check>)
    ensures var p := Upserted(answers, writes, a);
            Upserted(answers, writes, a + b) == if p.said == Written then Upserted(answers, p.writes, b) else p
    decreases |a|
  {
    if a == [] {
      assert a + b == b;
    } else {
      assert (a + b)[1..] == a[1..] + b;
      if answers(|writes|) == Written { UpsertedTogether(answers, writes + [a[0]], a[1..], b); }
    }
  }

  /** What a job comes to when this is the last thing it hears. */
  function OutcomeOf(said: Upsert): Outcome {
    match said
    case Written => Committed
    case Fenced => Skipped
    case Lost => Failed
  }

  /** One attempt at a scan job. `answers` is what the repository says to its upserts, one after
      another; `writes` is what they wrote. */
  class Attempt {
    const answers: nat -> Upsert
    var writes: seq<Check>
    var emitted: set<CheckId>
    var progressivelyWritten: set<CheckId>

    constructor (answers: nat -> Upsert)
      ensures this.answers == answers && writes == [] && emitted == {} && progressivelyWritten == {}
    {
      this.answers := answers;
      writes, emitted, progressivelyWritten := [], {}, {};
    }

    method UpsertCheck(check: Check) returns (said: Upsert)
      modifies this`writes
      ensures said == answers(|old(writes)|)
      ensures writes == if said == Written then old(writes) + [check] else old(writes)
    {
      said := answers(|writes|);
      if said == Written { writes := writes + [check]; }
    }

    /** The callback: stops at the first check that is not written. */
    method OnChecksComplete(checks: seq<Check>) returns (said: Upsert)
      modifies this`writes, this`progressivelyWritten
      ensures Progress(writes, said) == Upserted(answers, old(writes), checks)
      ensures old(writes) <= writes && progressivelyWritten == old(progressivelyWritten) + Ids(writes[|old(writes)|..])
    {
      var k := 0;
      assert checks[k..] == checks;
      while k < |checks|
        invariant 0 <= k <= |checks|
        invariant Upserted(answers, old(writes), checks) == Upserted(answers, writes, checks[k..])
        invariant old(writes) <= writes && progressivelyWritten == old(progressivelyWritten) + Ids(writes[|old(writes)|..])
      {
        ghost var mine := writes[|old(writes)|..];
        assert checks[k..][1..] == checks[k + 1..];
        said := UpsertCheck(checks[k]);
        if said != Written { return; }
        progressivelyWritten := progressivelyWritten + {checks[k].id};
        IdsAppend(mine, [checks[k]]);
        assert writes[|old(writes)|..] == mine + [checks[k]];
        k := k + 1;
      }
      said := Written;
    }

    method EmitChecks(phase: Phase) returns (said: Upsert)
      modifies this`writes, this`emitted, this`progressivelyWritten
      ensures var now := Completed(phase, old(emitted));
              && Progress(writes, said) == Upserted(answers, old(writes), now)
              && emitted == old(emitted) + if said == Written then Ids(now) else {}
      ensures old(writes) <= writes && progressivelyWritten == old(progressivelyWritten) + Ids(writes[|old(writes)|..])
    {
      var results := Completed(phase, emitted);
      said := OnChecksComplete(results);
      if said == Written { emitted := emitted + Ids(results); }
    }

    /** The runner, as far as it hands checks over: phase after phase, until one is refused. */
    method EmitEachPhase(phases: seq<Phase>) returns (said: Upsert)
      requires writes == [] && emitted == {} && progressivelyWritten == {}
      modifies this`writes, this`emitted, this`progressivelyWritten
      ensures Progress(writes, said) == Upserted(answers, [], Emitted(phases, {}))
      ensures progressivelyWritten == Ids(writes)
    {
      var p := 0;
      ghost var all := Upserted(answers, [], Emitted(phases, {}));
      assert phases[p..] == phases;
      while p < |phases|
        invariant 0 <= p <= |phases|
        invariant emitted == progressivelyWritten == Ids(writes)
        invariant all == Upserted(answers, writes, Emitted(phases[p..], emitted))
      {
        ghost var was, now := writes, Completed(phases[p], emitted);
        assert phases[p..][1..] == phases[p + 1..];
        UpsertedTogether(answers, was, now, Emitted(phases[p + 1..], emitted + Ids(now)));
        UpsertedMeans(answers, was, now);
        said := EmitChecks(phases[p]);
        assert writes == was + writes[|was|..];
        IdsAppend(was, writes[|was|..]);
        if said != Written { return; }
        assert writes[|was|..] == now;
        p := p + 1;
      }
      said := Written;
    }

    /** `runs` is false where the runner itself throws once its phases are done, and `commit` is
        what the commit comes to. The writes are those before the first refusal, and the job
        commits exactly where nothing is refused and nothing throws. */
    method ProcessScanJob(phases: seq<Phase>, runs: bool, evaluation: seq<Check>, commit: Upsert) returns (outcome: Outcome)
      requires writes == [] && emitted == {} && progressivelyWritten == {}
      modifies this
      ensures var wanted := if runs then AllWrites(phases, evaluation) else Emitted(phases, {});
              var done := Upserted(answers, [], wanted);
              && writes == done.writes
              && outcome == (if done.said != Written then OutcomeOf(done.said) else if runs then OutcomeOf(commit) else Failed)
              && (outcome == Committed <==> runs && commit == Written && forall n: nat :: n < |wanted| ==> answers(n) == Written)
    {
      ghost var early := Emitted(phases, {});
      UpsertedTogether(answers, [], early, Without(evaluation, Ids(early)));
      UpsertedMeans(answers, [], early);
      UpsertedMeans(answers, [], AllWrites(phases, evaluation));
      var said := EmitEachPhase(phases);
      if said != Written { return OutcomeOf(said); }
      assert writes == early;
      if !runs { return Failed; }
      outcome := WriteTheRest(evaluation, commit);
    }

    method WriteTheRest(evaluation: seq<Check>, commit: Upsert) returns (outcome: Outcome)
      modifies this`writes
      ensures var done := Upserted(answers, old(writes), Without(evaluation, progressivelyWritten));
              writes == done.writes && outcome == OutcomeOf(if done.said == Written then commit else done.said)
    {
      var i := 0;
      assert evaluation[i..] == evaluation;
      while i < |evaluation|
        invariant 0 <= i <= |evaluation|
        invariant Upserted(answers, old(writes), Without(evaluation, progressivelyWritten))
               == Upserted(answers, writes, Without(evaluation[i..], progressivelyWritten))
      {
        assert evaluation[i..][1..] == evaluation[i + 1..];
        if evaluation[i].id !in progressivelyWritten {
          ghost var rest := Without(evaluation[i..], progressivelyWritten);
          assert rest[0] == evaluation[i] && rest[1..] == Without(evaluation[i + 1..], progressivelyWritten);
          var said := UpsertCheck(evaluation[i]);
          if said != Written { return OutcomeOf(said); }
        } else {
          assert Without(evaluation[i..], progressivelyWritten) == Without(evaluation[i + 1..], progressivelyWritten);
        }
        i := i + 1;
      }
      outcome := OutcomeOf(commit);
    }
  }

  // ---------------------------------------------------------------------------------------

  lemma {:induction false} WithoutHas(checks: seq<Check>, done: set<CheckId>)
    ensures forall c :: c in Without(checks, done) <==> c in checks && c.id !in done
    ensures Ids(Without(checks, done)) == Ids(checks) - done
    ensures DistinctIds(checks) ==> DistinctIds(Without(checks, done))
  {
    if checks != [] {
      WithoutHas(checks[1..], done);
      assert checks == [checks[0]] + checks[1..];
      assert Without(checks, done) == (if checks[0].id in done then [] else [checks[0]]) + Without(checks[1..], done);
    }
  }

  ghost predicate PhasesWithin(phases: seq<Phase>, ids: set<CheckId>) {
    forall p :: p in phases ==> DistinctIds(p.evaluated) && Ids(p.evaluated) <= ids
  }

  lemma JoinDistinct(a: seq<Check>, b: seq<Check>)
    requires DistinctIds(a) && DistinctIds(b) && Ids(a) !! Ids(b)
    ensures DistinctIds(a + b)
  {
    forall i, j | 0 <= i < |a| && 0 <= j < |b| ensures a[i].id != b[j].id {
      assert a[i].id in Ids(a) && b[j].id in Ids(b);
    }
  }

  lemma {:induction false} EmittedOnce(phases: seq<Phase>, done: set<CheckId>, ids: set<CheckId>)
    requires PhasesWithin(phases, ids)
    ensures var e := Emitted(phases, done);
            DistinctIds(e) && Ids(e) <= ids && Ids(e) !! done
  {
    if phases != [] {
      var now := Completed(phases[0], done);
      WithoutHas(phases[0].evaluated, done + (Ids(phases[0].evaluated) - phases[0].ids));
      assert forall p :: p in phases[1..] ==> p in phases;
      EmittedOnce(phases[1..], done + Ids(now), ids);
      IdsAppend(now, Emitted(phases[1..], done + Ids(now)));
      JoinDistinct(now, Emitted(phases[1..], done + Ids(now)));
    }
  }

  /** A job that commits has written each check of the evaluation exactly once, whichever of
      its phases came first to complete it, and no other. */
  lemma EachCheckIsWrittenOnce(phases: seq<Phase>, evaluation: seq<Check>)
    requires DistinctIds(evaluation) && PhasesWithin(phases, Ids(evaluation))
    ensures DistinctIds(AllWrites(phases, evaluation))
    ensures Ids(AllWrites(phases, evaluation)) == Ids(evaluation)
    ensures |AllWrites(phases, evaluation)| == |evaluation|
  {
    var early := Emitted(phases, {});
    EmittedOnce(phases, {}, Ids(evaluation));
    WithoutHas(evaluation, Ids(early));
    IdsAppend(early, Without(evaluation, Ids(early)));
    JoinDistinct(early, Without(evaluation, Ids(early)));
    AsManyIds(evaluation);
    AsManyIds(AllWrites(phases, evaluation));
  }

  lemma HeadIsNew(checks: seq<Check>)
    requires DistinctIds(checks) && checks != []
    ensures checks[0].id !in Ids(checks[1..]) && Ids(checks) == {checks[0].id} + Ids(checks[1..])
  {
    assert checks == [checks[0]] + checks[1..];
    IdsAppend([checks[0]], checks[1..]);
    assert Ids([checks[0]]) == {checks[0].id};
  }

  lemma {:induction false} AsManyIds(checks: seq<Check>)
    requires DistinctIds(checks)
    ensures |Ids(checks)| == |checks|
  {
    if checks != [] {
      HeadIsNew(checks);
      AsManyIds(checks[1..]);
    }
  }

  /** What the rows then hold is the evaluation exactly when every early result is still the
      evaluation's: an early write is never corrected. */
  lemma RowsAreTheEvaluation(phases: seq<Phase>, evaluation: seq<Check>)
    requires DistinctIds(evaluation) && PhasesWithin(phases, Ids(evaluation))
    ensures (forall c :: c in AllWrites(phases, evaluation) <==> c in evaluation) <==>
              (forall c :: c in Emitted(phases, {}) ==> c in evaluation)
  {
    var early := Emitted(phases, {});
    WithoutHas(evaluation, Ids(early));
    if forall c :: c in early ==> c in evaluation {
      forall c | c in evaluation ensures c in AllWrites(phases, evaluation) {
        if c.id in Ids(early) {
          var d :| d in early && d.id == c.id;
          var i :| 0 <= i < |evaluation| && evaluation[i] == c;
          var j :| 0 <= j < |evaluation| && evaluation[j] == d;
          assert i == j;
        }
      }
    } else {
      var c :| c in early && c !in evaluation;
      assert c in AllWrites(phases, evaluation);
    }
  }
}

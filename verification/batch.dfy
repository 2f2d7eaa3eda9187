/** cmd/bergrb/main.go run: the loop over namespaces and tables. */
module Batch {
  import opened Wrappers
  import opened Prefix
  import opened Graph
  import opened Plan
  import opened PlanFacts
  import opened Closure
  import opened Rewriter
  import opened Swap
  import opened Migrate
  import opened OneTable
  import opened Coverage

  datatype Attempt = Attempt(id: Identifier, verdict: Verdict)

  function Oks(attempts: seq<Attempt>): nat {
    if attempts == [] then 0 else Oks(attempts[..|attempts| - 1]) + if attempts[|attempts| - 1].verdict.Ok() then 1 else 0
  }

  function FirstFailure(attempts: seq<Attempt>): (r: Option<Reason>)
    ensures r.None? <==> forall a | a in attempts :: a.verdict.Ok()
  {
    if attempts == [] then None
    else if attempts[0].verdict.Failed? then Some(attempts[0].verdict.reason)
    else FirstFailure(attempts[1..])
  }

  lemma {:induction false} FirstFailureSnoc(attempts: seq<Attempt>, a: Attempt)
    ensures FirstFailure(attempts + [a]) ==
            if FirstFailure(attempts).Some? then FirstFailure(attempts)
            else if a.verdict.Failed? then Some(a.verdict.reason) else None
  {
    if attempts == [] {
      assert attempts + [a] == [a];
    } else {
      assert (attempts + [a])[1..] == attempts[1..] + [a];
      FirstFailureSnoc(attempts[1..], a);
    }
  }

  /** The error that is returned is that of the first attempt that failed. */
  lemma {:induction false} FirstFailureIs(attempts: seq<Attempt>, i: nat)
    requires i < |attempts| && attempts[i].verdict.Failed? && forall j | 0 <= j < i :: attempts[j].verdict.Ok()
    ensures FirstFailure(attempts) == Some(attempts[i].verdict.reason)
  {
    if i > 0 {
      FirstFailureIs(attempts[1..], i - 1);
    }
  }

  /** The total of tables counted ok. */
  lemma {:induction false} OksCount(attempts: seq<Attempt>)
    ensures Oks(attempts) == |set i | 0 <= i < |attempts| && attempts[i].verdict.Ok()|
  {
    var n := |attempts|;
    if n > 0 {
      var init, all := attempts[..n - 1], set i | 0 <= i < n && attempts[i].verdict.Ok();
      OksCount(init);
      var before := set i | 0 <= i < n - 1 && init[i].verdict.Ok();
      assert all == if attempts[n - 1].verdict.Ok() then before + {n - 1} else before;
    }
  }

  function Listed(batches: seq<seq<Identifier>>): seq<Identifier> {
    if batches == [] then [] else Listed(batches[..|batches| - 1]) + batches[|batches| - 1]
  }

  /** Every table of these attempts that was counted ok has landed; no other table's pointer has moved. */
  ghost predicate Progress(m: PrefixMapping, dry: bool, s0: Store, st0: State, s: Store, st: State, attempts: seq<Attempt>) {
    && AgreeOffTarget(m, s0, s)
    && (!dry ==> forall a | a in attempts && a.verdict.Ok() :: Landed(m, s0, PointerOf(st, a.id)))
    && (forall id | id !in (set a | a in attempts :: a.id) :: PointerOf(st, id) == PointerOf(st0, id))
  }

  lemma ProgressStep(c: Settings, s0: Store, st0: State, s: Store, st: State, attempts: seq<Attempt>, id: Identifier, w: World,
                     v: Verdict, s': Store, st': State, faulted: bool, puts: seq<Put>)
    requires c.env.m.Legal() && Progress(c.env.m, c.opts.dry, s0, st0, s, st, attempts)
    requires if faulted then st' == st && v.Failed? && s' == After(s, puts) && Interrupted(puts, PlannedWrites(c, s, st, id, w))
             else MigrateOutcome(c, s, st, id, w) == Migration(v, s', st')
    ensures Progress(c.env.m, c.opts.dry, s0, st0, s', st', attempts + [Attempt(id, v)])
  {
    var m := c.env.m;
    var now := attempts + [Attempt(id, v)];
    assert forall a | a in attempts :: a in now;
    assert Attempt(id, v) in now;
    if faulted {
      FaultedContained(c, s, st, id, w, puts);
    } else {
      MigrationContained(c, s, st, id, w, id);
    }
    forall a | a in now && a.verdict.Ok() && !c.opts.dry ensures Landed(m, s0, PointerOf(st', a.id)) {
      LandedStep(c, s0, s, st, attempts, a, id, w, v, s', st', faulted);
    }
    forall other | other !in (set a | a in now :: a.id) ensures PointerOf(st', other) == PointerOf(st0, other) {
      assert other !in (set a | a in attempts :: a.id) && other != id;
      if !faulted {
        MigrationContained(c, s, st, id, w, other);
      }
    }
  }

  lemma FaultedContained(c: Settings, s: Store, st: State, id: Identifier, w: World, puts: seq<Put>)
    requires Interrupted(puts, PlannedWrites(c, s, st, id, w))
    ensures AgreeOffTarget(c.env.m, s, After(s, puts))
  {
    hide PlanTable;
    if PointerOf(st, id).Some? {
      TableTargetOnly(c.env, c.opts, s, PointerOf(st, id).value);
    }
    InterruptedStaysOnTarget(c.env.m, puts, PlannedWrites(c, s, st, id, w));
    TargetWritesKeepRest(c.env.m, s, puts);
  }

  lemma LandedStep(c: Settings, s0: Store, s: Store, st: State, attempts: seq<Attempt>, a: Attempt, id: Identifier, w: World,
                   v: Verdict, s': Store, st': State, faulted: bool)
    requires c.env.m.Legal() && !c.opts.dry && AgreeOffTarget(c.env.m, s0, s)
    requires forall b | b in attempts && b.verdict.Ok() :: Landed(c.env.m, s0, PointerOf(st, b.id))
    requires if faulted then st' == st && v.Failed? else MigrateOutcome(c, s, st, id, w) == Migration(v, s', st')
    requires a in attempts + [Attempt(id, v)] && a.verdict.Ok()
    ensures Landed(c.env.m, s0, PointerOf(st', a.id))
  {
    var m := c.env.m;
    hide MigrateOutcome, Landed;
    AgreeSymmetric(m, s0, s);
    if a in attempts {
      if !faulted && a.id == id {
        LandedByAgreement(m, s0, s, PointerOf(st, id));
        LandedStays(c, s, st, id, w);
      } else if !faulted {
        MigrationContained(c, s, st, id, w, a.id);
      }
    } else {
      OkMeansLanded(c, s, st, id, w);
      LandedByAgreement(m, s, s0, PointerOf(st', id));
    }
  }

  // Many tables in one store.

  /** The tables to migrate, by identifier, with the location each has in the original store. */
  datatype Fleet = Fleet(env: Env, ver: Versions, opts: Options, s0: Store, locs: map<Identifier, Uri>) {
    function Of(id: Identifier): Setup
      requires id in locs
    {
      Setup(env, ver, opts, s0, id, locs[id])
    }
  }

  /** Each table meets the conditions for a sound migration, all of them with one version per manifest. */
  ghost predicate SoundFleet(f: Fleet) {
    !f.opts.dry && forall id | id in f.locs :: Sound(f.Of(id)) && f.locs[id] != ""
  }

  /** No two tables write to one URI, as when they share no metadata. */
  ghost predicate Apart(f: Fleet) {
    forall a, b | a in f.locs && b in f.locs && a != b :: WriteSet(Planned(f.Of(a)).puts) !! WriteSet(Planned(f.Of(b)).puts)
  }

  /** The table, no process of its own running, is in a state that its migration and those of others can leave. */
  ghost predicate Fine(x: Setup, s: Store, st: State) {
    exists dropped: bool :: Invariant(x, Machine(Idle, s, st, dropped))
  }

  ghost predicate AllFine(f: Fleet, s: Store, st: State) {
    forall id | id in f.locs :: Fine(f.Of(id), s, st)
  }

  /** The writes are those planned for x, or, after a fault, a prefix of them with the last possibly damaged. */
  ghost predicate DoneFor(x: Setup, done: seq<Put>, faulted: bool) {
    done == [] || if faulted then Interrupted(done, Planned(x).puts) else done == Planned(x).puts
  }

  /** Writes made for one table spare every other, if they are the planned ones or go elsewhere. */
  lemma WritesSpare(x: Setup, y: Setup, s: Store, done: seq<Put>, faulted: bool)
    requires Sound(x) && Sound(y) && y == x.(id := y.id, loc := y.loc)
    requires DoneFor(x, done, faulted)
    requires faulted ==> WriteSet(Planned(x).puts) !! WriteSet(Planned(y).puts)
    ensures Spared(y, s, After(s, done))
  {
    OwnWrites(x);
    OwnWrites(y);
    hide Sound, Planned, Rewritten, Rewritable;
    forall u | !SameAt(s, After(s, done), u)
      ensures Rewritable(y, u) && u in After(s, done)
      ensures forall p | p in Planned(y).puts && p.uri == u :: After(s, done)[u] == p.blob
    {
      SpareAt(x, y, s, done, faulted, u);
    }
  }

  lemma SpareAt(x: Setup, y: Setup, s: Store, done: seq<Put>, faulted: bool, u: Uri)
    requires y == x.(id := y.id, loc := y.loc) && DoneFor(x, done, faulted) && !SameAt(s, After(s, done), u)
    requires AllCanonical(x.env, x.ver, x.s0, Planned(x).puts) && AllCanonical(x.env, x.ver, x.s0, Planned(y).puts)
    requires Agreeing(Planned(x).puts) && forall p | p in Planned(x).puts :: Rewritable(x, p.uri)
    requires faulted ==> WriteSet(Planned(x).puts) !! WriteSet(Planned(y).puts)
    ensures Rewritable(y, u) && u in After(s, done)
    ensures forall p | p in Planned(y).puts && p.uri == u :: After(s, done)[u] == p.blob
  {
    hide Planned, Rewritten;
    if forall p | p in done :: p.uri != u {
      AfterFrame(s, done, u);
    }
    var i :| 0 <= i < |done| && done[i].uri == u;
    var p := Planned(x).puts[i];
    assert p in Planned(x).puts && p.uri == u;
    StillThere(s, done, done[i]);
    if faulted {
      assert u in WriteSet(Planned(x).puts);
      assert forall q | q in Planned(y).puts :: q.uri in WriteSet(Planned(y).puts);
    } else {
      AgreeingLast(s, done, p);
      assert forall q | q in Planned(y).puts && q.uri == u :: Canonical(x.env, x.ver, x.s0, q) && q.blob == p.blob;
    }
  }

  lemma {:induction false} StillThere(s: Store, puts: seq<Put>, p: Put)
    requires p in puts
    ensures p.uri in After(s, puts)
    decreases |puts|
  {
    var s1, rest := s[puts[0].uri := puts[0].blob], puts[1..];
    if q :| q in rest && q.uri == p.uri {
      StillThere(s1, rest, q);
    } else {
      assert puts == [puts[0]] + rest;
      AfterFrame(s1, rest, p.uri);
    }
  }

  /** What an attempt at a fine table wrote. */
  lemma AttemptWrites(x: Setup, noValidate: bool, w: World, s: Store, st: State,
                      v: Verdict, s': Store, st': State, faulted: bool, puts: seq<Put>)
    returns (done: seq<Put>)
    requires Sound(x) && Fine(x, s, st) && Attempted(x, noValidate, w, s, st, v, s', st', faulted, puts)
    ensures s' == After(s, done) && DoneFor(x, done, faulted)
  {
    hide PlanTable, SwapOutcome, Orderly, LoadMeta, Walked, CurrentKept, Contained, PointerKnown;
    var d: bool :| Invariant(x, Machine(Idle, s, st, d));
    var a := Machine(Idle, s, st, d);
    NotBoth(x.env.m, x.loc);
    KnownPointer(x, a);
    SamePlan(x, s);
    hide Sound, Invariant;
    Coverage.NoWrites(s);
    if faulted {
      done := puts;
    } else if PointerOf(st, x.id) == Some(x.loc) && w.load && x.loc != "" {
      done := Planned(x).puts;
    } else {
      done := [];
    }
  }

  /** An attempt at one table leaves the other tables fine. */
  lemma AttemptSpares(x: Setup, y: Setup, noValidate: bool, w: World, s: Store, st: State,
                      v: Verdict, s': Store, st': State, faulted: bool, puts: seq<Put>)
    requires Sound(x) && Sound(y) && y == x.(id := y.id, loc := y.loc) && y.id != x.id
    requires faulted ==> WriteSet(Planned(x).puts) !! WriteSet(Planned(y).puts)
    requires Fine(x, s, st) && Fine(y, s, st) && Attempted(x, noValidate, w, s, st, v, s', st', faulted, puts)
    ensures Fine(y, s', st')
  {
    hide Orderly, LoadMeta, Walked, CurrentKept, Planned, Invariant, MigrateOutcome, PlannedWrites, After, DoneFor;
    assert x.env.m.Legal();
    hide Sound;
    var done := AttemptWrites(x, noValidate, w, s, st, v, s', st', faulted, puts);
    MigrationContained(Settings(x.env, x.opts, noValidate), s, st, x.id, w, y.id);
    WritesSpare(x, y, s, done, faulted);
    var d: bool :| Invariant(y, Machine(Idle, s, st, d));
    var a, b := Machine(Idle, s, st, d), Machine(Idle, s', st', d);
    hide Spared;
    assert Others(y, a, b);
    assert Next(y, a, b);
    StepKeeps(y, a, b);
  }

  /** An attempt at a fine table leaves it fine. */
  lemma AttemptKeeps(x: Setup, noValidate: bool, w: World, s: Store, st: State,
                     v: Verdict, s': Store, st': State, faulted: bool, puts: seq<Put>)
    requires Sound(x) && x.loc != ""
    requires Fine(x, s, st) && Attempted(x, noValidate, w, s, st, v, s', st', faulted, puts)
    ensures Fine(x, s', st')
  {
    hide Sound, Invariant, Attempted, Safe;
    var d: bool :| Invariant(x, Machine(Idle, s, st, d));
    var b := MigrationSafe(x, noValidate, Machine(Idle, s, st, d), w, v, s', st', faulted, puts);
    assert b == Machine(Idle, s', st', b.dropped);
  }

  /** An attempt at any table of the fleet leaves all of them fine. */
  lemma AttemptKeepsAll(f: Fleet, id: Identifier, noValidate: bool, w: World, s: Store, st: State,
                        v: Verdict, s': Store, st': State, faulted: bool, puts: seq<Put>)
    requires SoundFleet(f) && id in f.locs && (faulted ==> Apart(f)) && AllFine(f, s, st)
    requires Attempted(f.Of(id), noValidate, w, s, st, v, s', st', faulted, puts)
    ensures AllFine(f, s', st')
  {
    hide Sound, Attempted, Fine, Planned;
    forall other | other in f.locs ensures Fine(f.Of(other), s', st') {
      if other == id {
        AttemptKeeps(f.Of(id), noValidate, w, s, st, v, s', st', faulted, puts);
      } else {
        AttemptSpares(f.Of(id), f.Of(other), noValidate, w, s, st, v, s', st', faulted, puts);
      }
    }
  }

  /** A fine table that has a pointer reads from it as the original. */
  lemma FineReads(x: Setup, s: Store, st: State)
    requires Sound(x) && Fine(x, s, st) && PointerOf(st, x.id).Some?
    ensures ReadsAs(x.opts, s, PointerOf(st, x.id).value, x.s0, x.loc)
  {
    hide Sound, Invariant, ReadsAs;
    var d: bool :| Invariant(x, Machine(Idle, s, st, d));
    InvariantSafe(x, Machine(Idle, s, st, d));
  }

  /** Every table of the fleet that has a pointer reads from it as the original. */
  ghost predicate FleetReads(f: Fleet, s: Store, st: State) {
    forall id | id in f.locs && PointerOf(st, id).Some? ::
      ReadsAs(f.opts, s, PointerOf(st, id).value, f.s0, f.locs[id])
  }

  /** All tables are fine and read as the original from whatever pointer they have; those counted ok have one. */
  ghost predicate FleetMigrated(f: Fleet, s: Store, st: State, attempts: seq<Attempt>) {
    && AllFine(f, s, st)
    && FleetReads(f, s, st)
    && forall a | a in attempts && a.verdict.Ok() :: PointerOf(st, a.id).Some?
  }

  /** f is a fleet of these settings, fine where the loop starts, and the loop attempts no other table. */
  ghost predicate Prepared(f: Fleet, env: Env, opts: Options, s: Store, st: State, batches: seq<seq<Identifier>>) {
    && f.env == env && f.opts == opts && SoundFleet(f) && AllFine(f, s, st)
    && forall id | id in Listed(batches) :: id in f.locs
  }

  /** The nested loops of run over namespaces and tables. worlds(n) is what the n-th attempt meets. For any fleet that
      is fine at the start, be it the original state or what earlier, interrupted runs left, every table that has a
      pointer reads as the original at the end, so every table counted ok does. */
  method Run(engine: Engine, client: Client, noValidate: bool, keepGoing: bool,
             batches: seq<seq<Identifier>>, worlds: nat -> World, ghost f: Fleet)
    returns (firstErr: Option<Reason>, totalOK: nat, totalFailed: nat, ghost attempts: seq<Attempt>)
    requires engine.env.m.Legal()
    modifies engine.store, client, client.server
    ensures |attempts| <= |Listed(batches)| && forall i | 0 <= i < |attempts| :: attempts[i].id == Listed(batches)[i]
    ensures keepGoing || firstErr.None? ==> |attempts| == |Listed(batches)| && totalOK + totalFailed == |Listed(batches)|
    ensures keepGoing || firstErr.None? ==> totalOK == Oks(attempts)
    ensures firstErr == FirstFailure(attempts)
    ensures !keepGoing && firstErr.Some? ==>
              attempts != [] && attempts[|attempts| - 1].verdict == Failed(firstErr.value) &&
              FirstFailure(attempts[..|attempts| - 1]).None?
    ensures Progress(engine.env.m, engine.opts.dry, old(engine.store.objects), old(client.Now()),
                     engine.store.objects, client.Now(), attempts)
    ensures Prepared(f, engine.env, engine.opts, old(engine.store.objects), old(client.Now()), batches) &&
            (Apart(f) || engine.store.faults == old(engine.store.faults)) ==>
              FleetMigrated(f, engine.store.objects, client.Now(), attempts)
  {
    hide Midrun, AttemptedSoFar, Tally, Attended, Prepared, FleetMigrated, Progress, Listed, FirstFailure, Oks, Apart;
    firstErr, totalOK, totalFailed, attempts := None, 0, 0, [];
    ghost var z := Start(batches, keepGoing, engine.env.m, engine.opts.dry, engine.store.objects, client.Now(), engine.store.faults,
                         Prepared(f, engine.env, engine.opts, engine.store.objects, client.Now(), batches), f);
    LoopStarts(z, engine.env, engine.opts);
    for b := 0 to |batches|
      invariant Midrun(z, b, 0, firstErr, totalOK, totalFailed, attempts, engine.store.faults, engine.store.objects, client.Now())
    {
      var nsOK, nsFailed := 0, 0;
      for t := 0 to |batches[b]|
        invariant Midrun(z, b, t, firstErr, totalOK + nsOK, totalFailed + nsFailed, attempts,
                         engine.store.faults, engine.store.objects, client.Now())
      {
        var v := Step(engine, client, noValidate, batches[b][t], worlds(totalOK + nsOK + totalFailed + nsFailed),
                      z, b, t, firstErr, totalOK + nsOK, totalFailed + nsFailed, attempts);
        ghost var before := attempts;
        attempts := before + [Attempt(batches[b][t], v)];
        if v.Failed? {
          nsFailed := nsFailed + 1;
          if firstErr.None? {
            firstErr := Some(v.reason);
          }
          if !keepGoing {
            assert attempts[..|attempts| - 1] == before;
            return;
          }
        } else {
          nsOK := nsOK + 1;
        }
      }
      totalOK, totalFailed := totalOK + nsOK, totalFailed + nsFailed;
      BatchEnds(z, b, firstErr, totalOK, totalFailed, attempts, engine.store.faults, engine.store.objects, client.Now());
    }
    LoopEnds(z, firstErr, totalOK, totalFailed, attempts, engine.store.faults, engine.store.objects, client.Now());
  }

  /** What the loop starts from; fleet tells whether f is prepared. */
  datatype Start = Start(batches: seq<seq<Identifier>>, keepGoing: bool, m: PrefixMapping, dry: bool,
                         s0: Store, st0: State, faults0: nat, fleet: bool, f: Fleet)

  /** The loop invariant, after b whole batches and t tables of the next. */
  ghost predicate Midrun(z: Start, b: nat, t: nat, firstErr: Option<Reason>, ok: nat, failed: nat, attempts: seq<Attempt>,
                         faults: nat, s: Store, st: State)
    requires b <= |z.batches|
  {
    && AttemptedSoFar(z.batches, b, t, attempts)
    && Tally(z.keepGoing, firstErr, ok, failed, attempts)
    && Attended(z, attempts, faults, s, st)
  }

  /** What the attempts have left behind. */
  ghost predicate Attended(z: Start, attempts: seq<Attempt>, faults: nat, s: Store, st: State) {
    && faults >= z.faults0
    && Progress(z.m, z.dry, z.s0, z.st0, s, st, attempts)
    && (z.fleet ==> SoundFleet(z.f) && (Apart(z.f) || faults == z.faults0 ==> AllFine(z.f, s, st)))
    && (z.fleet ==> z.f.opts.dry == z.dry && z.f.env.m == z.m && forall id | id in Listed(z.batches) :: id in z.f.locs)
  }

  lemma LoopStarts(z: Start, env: Env, opts: Options)
    requires z.m == env.m && z.dry == opts.dry && z.fleet == Prepared(z.f, env, opts, z.s0, z.st0, z.batches)
    ensures Midrun(z, 0, 0, None, 0, 0, [], z.faults0, z.s0, z.st0)
    ensures z.fleet ==> z.f.env == env && z.f.opts == opts
  {
    assert z.batches[..0] == [];
  }

  lemma BatchEnds(z: Start, b: nat, firstErr: Option<Reason>, ok: nat, failed: nat, attempts: seq<Attempt>,
                  faults: nat, s: Store, st: State)
    requires b < |z.batches| && Midrun(z, b, |z.batches[b]|, firstErr, ok, failed, attempts, faults, s, st)
    ensures Midrun(z, b + 1, 0, firstErr, ok, failed, attempts, faults, s, st)
  {
    hide Tally, Attended;
    ListedBatch(z.batches, b, attempts);
  }

  /** The promises of Run that hold whenever it returns. */
  ghost predicate Returned(z: Start, attempts: seq<Attempt>, faults: nat, s: Store, st: State) {
    && |attempts| <= |Listed(z.batches)|
    && (forall i | 0 <= i < |attempts| :: attempts[i].id == Listed(z.batches)[i])
    && Progress(z.m, z.dry, z.s0, z.st0, s, st, attempts)
    && (z.fleet && (Apart(z.f) || faults == z.faults0) ==> FleetMigrated(z.f, s, st, attempts))
  }

  lemma Returns(z: Start, b: nat, t: nat, attempts: seq<Attempt>, faults: nat, s: Store, st: State)
    requires b <= |z.batches| && AttemptedSoFar(z.batches, b, t, attempts) && Attended(z, attempts, faults, s, st)
    ensures Returned(z, attempts, faults, s, st)
  {
    hide Sound, Fine, ReadsAs, Apart;
    if z.fleet && (Apart(z.f) || faults == z.faults0) {
      forall id | id in z.f.locs && PointerOf(st, id).Some?
        ensures ReadsAs(z.f.opts, s, PointerOf(st, id).value, z.f.s0, z.f.locs[id])
      {
        FineReads(z.f.Of(id), s, st);
      }
    }
  }

  lemma LoopEnds(z: Start, firstErr: Option<Reason>, ok: nat, failed: nat, attempts: seq<Attempt>,
                 faults: nat, s: Store, st: State)
    requires Midrun(z, |z.batches|, 0, firstErr, ok, failed, attempts, faults, s, st)
    ensures |attempts| == |Listed(z.batches)| == ok + failed && ok == Oks(attempts)
    ensures firstErr == FirstFailure(attempts) && (!z.keepGoing ==> firstErr.None?)
    ensures Returned(z, attempts, faults, s, st)
  {
    hide Attended, Returned;
    assert z.batches[..|z.batches|] == z.batches;
    Returns(z, |z.batches|, 0, attempts, faults, s, st);
  }

  lemma TallyNext(keepGoing: bool, firstErr: Option<Reason>, ok: nat, failed: nat, attempts: seq<Attempt>, a: Attempt)
    requires Tally(keepGoing, firstErr, ok, failed, attempts)
    ensures a.verdict.Ok() ==> Tally(keepGoing, firstErr, ok + 1, failed, attempts + [a])
    ensures a.verdict.Failed? && keepGoing ==>
              Tally(keepGoing, if firstErr.None? then Some(a.verdict.reason) else firstErr, ok, failed + 1, attempts + [a])
    ensures a.verdict.Failed? && !keepGoing ==>
              firstErr.None? && FirstFailure(attempts).None? && FirstFailure(attempts + [a]) == Some(a.verdict.reason)
  {
    FirstFailureSnoc(attempts, a);
    assert (attempts + [a])[..|attempts|] == attempts;
  }

  lemma InFleet(batches: seq<seq<Identifier>>, b: nat, t: nat)
    requires b < |batches| && t < |batches[b]|
    ensures batches[b][t] in Listed(batches)
  {
    ListedPrefix(batches, b + 1);
    ListedOne(batches, b);
    var n := |Listed(batches[..b])| + t;
    assert Listed(batches)[n] == Listed(batches[..b + 1])[n] == batches[b][t];
  }

  /** The attempts made after b whole batches and t tables of the next. */
  ghost predicate AttemptedSoFar(batches: seq<seq<Identifier>>, b: nat, t: nat, attempts: seq<Attempt>)
    requires b <= |batches|
  {
    && |attempts| == |Listed(batches[..b])| + t
    && |attempts| <= |Listed(batches)|
    && (b < |batches| ==> t <= |batches[b]|)
    && forall i | 0 <= i < |attempts| :: attempts[i].id == Listed(batches)[i]
  }

  ghost predicate Tally(keepGoing: bool, firstErr: Option<Reason>, ok: nat, failed: nat, attempts: seq<Attempt>) {
    && ok == Oks(attempts) && ok + failed == |attempts|
    && firstErr == FirstFailure(attempts)
    && (!keepGoing ==> firstErr.None?)
  }

  lemma {:induction false} ListedPrefix(batches: seq<seq<Identifier>>, b: nat)
    requires b <= |batches|
    ensures Listed(batches[..b]) <= Listed(batches)
    decreases |batches| - b
  {
    if b == |batches| {
      assert batches[..b] == batches;
    } else {
      ListedPrefix(batches, b + 1);
      ListedOne(batches, b);
    }
  }

  lemma ListedOne(batches: seq<seq<Identifier>>, b: nat)
    requires b < |batches|
    ensures Listed(batches[..b + 1]) == Listed(batches[..b]) + batches[b]
  {
    assert batches[..b + 1][..b] == batches[..b];
  }

  lemma ListedNext(batches: seq<seq<Identifier>>, b: nat, t: nat, attempts: seq<Attempt>, a: Attempt)
    requires b < |batches| && t < |batches[b]| && AttemptedSoFar(batches, b, t, attempts) && a.id == batches[b][t]
    ensures AttemptedSoFar(batches, b, t + 1, attempts + [a])
  {
    ListedPrefix(batches, b + 1);
    ListedOne(batches, b);
    assert Listed(batches)[|Listed(batches[..b])| + t] == Listed(batches[..b + 1])[|Listed(batches[..b])| + t];
  }

  lemma ListedBatch(batches: seq<seq<Identifier>>, b: nat, attempts: seq<Attempt>)
    requires b < |batches| && AttemptedSoFar(batches, b, |batches[b]|, attempts)
    ensures AttemptedSoFar(batches, b + 1, 0, attempts)
  {
    ListedOne(batches, b);
  }

  /** One table of the loop: table t of batch b. */
  method Step(engine: Engine, client: Client, noValidate: bool, id: Identifier, w: World,
              ghost z: Start, ghost b: nat, ghost t: nat,
              ghost firstErr: Option<Reason>, ghost ok: nat, ghost failed: nat, ghost attempts: seq<Attempt>)
    returns (v: Verdict)
    requires engine.env.m.Legal() && z.m == engine.env.m && z.dry == engine.opts.dry
    requires z.fleet ==> z.f.env == engine.env && z.f.opts == engine.opts
    requires b < |z.batches| && t < |z.batches[b]| && id == z.batches[b][t]
    requires Midrun(z, b, t, firstErr, ok, failed, attempts, engine.store.faults, engine.store.objects, client.Now())
    modifies engine.store, client, client.server
    ensures !v.Failed? ==>
              Midrun(z, b, t + 1, firstErr, ok + 1, failed, attempts + [Attempt(id, v)],
                     engine.store.faults, engine.store.objects, client.Now())
    ensures v.Failed? && z.keepGoing ==>
              Midrun(z, b, t + 1, if firstErr.None? then Some(v.reason) else firstErr, ok, failed + 1, attempts + [Attempt(id, v)],
                     engine.store.faults, engine.store.objects, client.Now())
    ensures v.Failed? && !z.keepGoing ==>
              && Returned(z, attempts + [Attempt(id, v)], engine.store.faults, engine.store.objects, client.Now())
              && firstErr.None? && FirstFailure(attempts).None? && FirstFailure(attempts + [Attempt(id, v)]) == Some(v.reason)
  {
    hide AttemptedSoFar, Tally, Attended, Returned, FirstFailure, MigrateOutcome, PlannedWrites;
    ghost var s, st, faults := engine.store.objects, client.Now(), engine.store.faults;
    ghost var puts;
    v, puts := MigrateOne(engine, client, noValidate, id, w);
    InFleet(z.batches, b, t);
    ListedNext(z.batches, b, t, attempts, Attempt(id, v));
    TallyNext(z.keepGoing, firstErr, ok, failed, attempts, Attempt(id, v));
    AttemptAttended(z, Settings(engine.env, engine.opts, noValidate), attempts, id, w, faults, s, st,
                    v, engine.store.faults, engine.store.objects, client.Now(), puts);
    Returns(z, b, t + 1, attempts + [Attempt(id, v)], engine.store.faults, engine.store.objects, client.Now());
  }

  lemma AttemptAttended(z: Start, c: Settings, attempts: seq<Attempt>, id: Identifier, w: World,
                        faults: nat, s: Store, st: State, v: Verdict, faults': nat, s': Store, st': State, puts: seq<Put>)
    requires c.env.m.Legal() && z.m == c.env.m && z.dry == c.opts.dry && (z.fleet ==> z.f.env == c.env && z.f.opts == c.opts)
    requires Attended(z, attempts, faults, s, st) && id in Listed(z.batches) && faults' >= faults
    requires if faults' > faults then st' == st && v.Failed? && s' == After(s, puts) && Interrupted(puts, PlannedWrites(c, s, st, id, w))
             else MigrateOutcome(c, s, st, id, w) == Migration(v, s', st')
    ensures Attended(z, attempts + [Attempt(id, v)], faults', s', st')
  {
    hide Progress, MigrateOutcome, PlannedWrites, AllFine, Apart, Listed;
    var faulted := faults' > faults;
    ProgressStep(c, z.s0, z.st0, s, st, attempts, id, w, v, s', st', faulted, puts);
    if z.fleet && (Apart(z.f) || faults' == z.faults0) {
      assert Attempted(z.f.Of(id), c.noValidate, w, s, st, v, s', st', faulted, puts);
      AttemptKeepsAll(z.f, id, c.noValidate, w, s, st, v, s', st', faulted, puts);
    }
  }
}

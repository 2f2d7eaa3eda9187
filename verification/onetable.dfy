/** cmd/bergrb/main.go migrateOne, as executed. */
module OneTable {
  import opened Wrappers
  import opened Prefix
  import opened Metadata
  import opened Graph
  import opened Plan
  import opened PlanFacts
  import opened Preserve
  import opened Rewriter
  import opened Swap

  /** Everything outside the program that one migration depends on, storage apart. */
  datatype World = World(load: bool, swap: Answers, cancelAt: nat, validates: bool)

  datatype Reason = LoadFailed | RewriteFailed(error: Error) | SwapFailed(result: SwapResult) | ValidationFailed

  datatype Verdict = AlreadyMigrated | DryRunDone | Migrated | Failed(reason: Reason) {
    predicate Ok() {
      !Failed?
    }

    predicate ValidationFails() {
      Failed? && reason.ValidationFailed?
    }
  }

  datatype Settings = Settings(env: Env, opts: Options, noValidate: bool)

  datatype Migration = Migration(verdict: Verdict, store: Store, st: State)

  function SwapRequest(id: Identifier, loc: Uri, newLoc: Uri, w: World): Request {
    Request(id, loc, newLoc, w.swap, w.cancelAt)
  }

  /** migrateOne on fault-free storage. */
  function MigrateOutcome(c: Settings, s: Store, st: State, id: Identifier, w: World): Migration {
    if !w.load || PointerOf(st, id).None? || PointerOf(st, id).value == "" then Migration(Failed(LoadFailed), s, st)
    else
      var loc := PointerOf(st, id).value;
      if c.env.m.UnderTarget(loc) then Migration(AlreadyMigrated, s, st)
      else
        var plan := PlanTable(c.env, c.opts, s, loc);
        match plan.res
        case Failure(e) => Migration(Failed(RewriteFailed(e)), After(s, plan.puts), st)
        case Success(res) => AfterRewrite(c, After(s, plan.puts), st, id, res, w)
  }

  function AfterRewrite(c: Settings, s: Store, st: State, id: Identifier, res: RewriteResult, w: World): Migration {
    if c.opts.dry then Migration(DryRunDone, s, st)
    else
      var o := SwapOutcome(st, SwapRequest(id, res.oldLoc, res.newLoc, w));
      Migration(
        if !o.result.Swapped? then Failed(SwapFailed(o.result))
        else if c.noValidate || w.validates then Migrated
        else Failed(ValidationFailed),
        s, o.final)
  }

  /** The writes planned for a table's migration. */
  function PlannedWrites(c: Settings, s: Store, st: State, id: Identifier, w: World): seq<Put> {
    if !w.load || PointerOf(st, id).None? || PointerOf(st, id).value == "" || c.env.m.UnderTarget(PointerOf(st, id).value) then []
    else PlanTable(c.env, c.opts, s, PointerOf(st, id).value).puts
  }

  /** migrateOne. */
  method MigrateOne(engine: Engine, client: Client, noValidate: bool, id: Identifier, w: World)
    returns (v: Verdict, ghost puts: seq<Put>)
    modifies engine.store, client, client.server
    ensures Wrote(engine.store, puts)
    ensures var c := Settings(engine.env, engine.opts, noValidate);
            var s, st := old(engine.store.objects), old(client.Now());
            if engine.store.faults == old(engine.store.faults)
            then MigrateOutcome(c, s, st, id, w) == Migration(v, engine.store.objects, client.Now())
            else
              && v.Failed? && v.reason.RewriteFailed? && v.reason.error.StorageFailed?
              && client.Now() == st
              && Interrupted(puts, PlannedWrites(c, s, st, id, w))
    ensures Interrupted(puts, PlannedWrites(Settings(engine.env, engine.opts, noValidate), old(engine.store.objects), old(client.Now()), id, w))
  {
    hide PlanTable, SwapOutcome, After;
    NoWrites(engine.store.objects);
    puts := [];
    var loc := client.server.LoadTable(id, w.load);
    if loc.None? {
      return Failed(LoadFailed), [];
    }
    if engine.env.m.UnderTarget(loc.value) {
      return AlreadyMigrated, [];
    }
    var res;
    ghost var metaHits;
    res, metaHits, puts := engine.RewriteTable(loc.value);
    if res.Failure? {
      return Failed(RewriteFailed(res.error)), puts;
    }
    if engine.opts.dry {
      return DryRunDone, puts;
    }
    OldLocKept(engine.env, engine.opts, old(engine.store.objects), loc.value);
    var swapped := client.SwapMetadataLocation(SwapRequest(id, loc.value, res.value.newLoc, w));
    if !swapped.Swapped? {
      return Failed(SwapFailed(swapped)), puts;
    }
    if noValidate {
      return Migrated, puts;
    }
    return if w.validates then Migrated else Failed(ValidationFailed), puts;
  }

  lemma OldLocKept(env: Env, opts: Options, s: Store, loc: Uri)
    requires PlanTable(env, opts, s, loc).res.Success?
    ensures PlanTable(env, opts, s, loc).res.value.oldLoc == loc
  {
    hide PlanLoop, PlanMeta;
  }

  /** The swap that a migration comes to, from its catalog state. */
  function SwapOf(c: Settings, s: Store, st: State, id: Identifier, w: World): Outcome
    requires PointerOf(st, id).Some? && PlanTable(c.env, c.opts, s, PointerOf(st, id).value).res.Success?
  {
    var loc := PointerOf(st, id).value;
    SwapOutcome(st, SwapRequest(id, loc, PlanTable(c.env, c.opts, s, loc).res.value.newLoc, w))
  }

  /** Exactly when a migration is counted ok, and as what: the table is loaded and lies under the target already, or its
      rewrite succeeds and, unless the run is dry, so does its swap and, unless switched off, its validation. */
  lemma OkIff(c: Settings, s: Store, st: State, id: Identifier, w: World)
    ensures var v := MigrateOutcome(c, s, st, id, w).verdict;
            var loaded := w.load && PointerOf(st, id).Some? && PointerOf(st, id).value != "";
            var under := loaded && c.env.m.UnderTarget(PointerOf(st, id).value);
            var rewritten := loaded && !under && PlanTable(c.env, c.opts, s, PointerOf(st, id).value).res.Success?;
            && (v.AlreadyMigrated? <==> under)
            && (v.DryRunDone? <==> rewritten && c.opts.dry)
            && (v.Migrated? <==>
                  rewritten && !c.opts.dry && SwapOf(c, s, st, id, w).result.Swapped? && (w.validates || c.noValidate))
            && (v.Ok() <==> v.AlreadyMigrated? || v.DryRunDone? || v.Migrated?)
  {
    hide PlanTable, SwapOutcome;
    if PointerOf(st, id).Some? && PlanTable(c.env, c.opts, s, PointerOf(st, id).value).res.Success? {
      OldLocKept(c.env, c.opts, s, PointerOf(st, id).value);
    }
  }

  /** What the validation has to say matters exactly to a migration whose swap succeeded with validation on: then it is
      the verdict. The store and the catalog are the same either way. */
  lemma ValidationDecides(c: Settings, s: Store, st: State, id: Identifier, w: World)
    ensures var passed, failed := MigrateOutcome(c, s, st, id, w.(validates := true)), MigrateOutcome(c, s, st, id, w.(validates := false));
            && failed.store == passed.store && failed.st == passed.st
            && (passed.verdict != failed.verdict <==> passed.verdict.Migrated? && !c.noValidate)
            && (passed.verdict != failed.verdict ==> failed.verdict == Failed(ValidationFailed))
            && !passed.verdict.ValidationFails() && (c.noValidate ==> !failed.verdict.ValidationFails())
  {
    hide PlanTable, SwapOutcome;
  }

  /** The reason of a failure names the step that failed, and that step was reached. */
  lemma ReasonNamesStep(c: Settings, s: Store, st: State, id: Identifier, w: World)
    requires MigrateOutcome(c, s, st, id, w).verdict.Failed?
    ensures match MigrateOutcome(c, s, st, id, w).verdict.reason
            case LoadFailed => !w.load || PointerOf(st, id).GetOr("") == ""
            case RewriteFailed(e) =>
              w.load && PointerOf(st, id).Some? && PlanTable(c.env, c.opts, s, PointerOf(st, id).value).res == Failure(e)
            case SwapFailed(r) =>
              && !c.opts.dry && PointerOf(st, id).Some?
              && PlanTable(c.env, c.opts, s, PointerOf(st, id).value).res.Success?
              && SwapOf(c, s, st, id, w).result == r && !r.Swapped?
            case ValidationFailed => !w.validates && !c.noValidate && !c.opts.dry
  {
    hide PlanTable, SwapOutcome;
    if PointerOf(st, id).Some? && PlanTable(c.env, c.opts, s, PointerOf(st, id).value).res.Success? {
      OldLocKept(c.env, c.opts, s, PointerOf(st, id).value);
    }
  }

  /** A migration touches no other table's pointer, and no object outside the target. */
  lemma MigrationContained(c: Settings, s: Store, st: State, id: Identifier, w: World, other: Identifier)
    ensures var out := MigrateOutcome(c, s, st, id, w);
            && (other != id ==> PointerOf(out.st, other) == PointerOf(st, other))
            && AgreeOffTarget(c.env.m, s, out.store)
  {
    hide PlanTable, SwapOutcome;
    if PointerOf(st, id).Some? {
      var loc := PointerOf(st, id).value;
      var plan := PlanTable(c.env, c.opts, s, loc);
      TableTargetOnly(c.env, c.opts, s, loc);
      AgreeAfter(c.env.m, s, s, plan.puts);
      if plan.res.Success? {
        SwapStates(st, SwapRequest(id, plan.res.value.oldLoc, plan.res.value.newLoc, w), 0);
      }
    }
  }

  /** The pointer is under the target, or nothing in the metadata it leads to is in scope. */
  ghost predicate Landed(m: PrefixMapping, s: Store, p: Option<Uri>) {
    p.Some? && (m.UnderTarget(p.value) || !MetaMoves(m, s, p.value))
  }

  /** A migration counted as done leaves the pointer under the target, unless nothing in the metadata was in scope. */
  lemma OkMeansLanded(c: Settings, s: Store, st: State, id: Identifier, w: World)
    requires c.env.m.Legal() && !c.opts.dry && MigrateOutcome(c, s, st, id, w).verdict.Ok()
    ensures Landed(c.env.m, s, PointerOf(MigrateOutcome(c, s, st, id, w).st, id))
  {
    var loc := PointerOf(st, id).value;
    if !c.env.m.UnderTarget(loc) {
      var plan := PlanTable(c.env, c.opts, s, loc);
      NewLocation(c.env, c.opts, s, loc);
      OldLocKept(c.env, c.opts, s, loc);
      hide PlanTable, MetaMoves;
      var q := SwapRequest(id, loc, plan.res.value.newLoc, w);
      SwappedPointsNew(st, q);
      ApplyLands(c.env.m, loc);
    }
  }

  /** The locations of a report: the old one as given; the new one under the target, unless a live run found nothing in the
      document in scope. */
  lemma NewLocation(env: Env, opts: Options, s: Store, loc: Uri)
    requires env.m.Legal() && PlanTable(env, opts, s, loc).res.Success?
    ensures env.m.Matches(loc) && PlanTable(env, opts, s, loc).res.value.oldLoc == loc
    ensures PlanTable(env, opts, s, loc).res.value.newLoc ==
            if opts.dry || MetaMoves(env.m, s, loc) then env.m.Apply(loc) else loc
  {
    hide PlanLoop, PlanSnapshot, Parse, Selected, WalkHits;
    var snaps := Selected(LoadMeta(s, loc).value, opts.currentOnly);
    var walk := PlanLoop(SnapshotStep(env, opts.dry), s, snaps).puts;
    SnapshotsTargetOnly(env, opts.dry, s, snaps);
    AgreeAfter(env.m, s, s, walk);
    MetaInsensitive(env, s, After(s, walk), loc);
  }

  lemma SwappedPointsNew(st: State, q: Request)
    requires SwapOutcome(st, q).result.Swapped?
    ensures PointerOf(SwapOutcome(st, q).final, q.id) == if q.oldLoc == q.newLoc then PointerOf(st, q.id) else Some(q.newLoc)
  {
  }

  /** A table that has landed stays so, whatever a further attempt on it meets. */
  lemma LandedStays(c: Settings, s: Store, st: State, id: Identifier, w: World)
    requires c.env.m.Legal() && !c.opts.dry && Landed(c.env.m, s, PointerOf(st, id))
    ensures PointerOf(MigrateOutcome(c, s, st, id, w).st, id) == PointerOf(st, id)
  {
    var loc := PointerOf(st, id).value;
    if !c.env.m.UnderTarget(loc) && PlanTable(c.env, c.opts, s, loc).res.Success? {
      NewLocation(c.env, c.opts, s, loc);
      OldLocKept(c.env, c.opts, s, loc);
      hide PlanTable, MetaMoves;
    }
  }

  lemma LandedByAgreement(m: PrefixMapping, s: Store, t: Store, p: Option<Uri>)
    requires AgreeOffTarget(m, s, t) && Landed(m, s, p)
    ensures Landed(m, t, p)
  {
  }
}

/** Every execution of migrateOne is a path of the machine, so what it leaves behind is safe. */
module Coverage {
  import opened Wrappers
  import opened Prefix
  import opened Graph
  import opened Plan
  import opened PlanFacts
  import opened Preserve
  import opened Swap
  import opened Migrate
  import opened OneTable

  ghost predicate Reaches(x: Setup, a: Machine, b: Machine, n: nat)
    decreases n
  {
    if n == 0 then a == b else exists c :: Reaches(x, a, c, n - 1) && Next(x, c, b)
  }

  lemma OneMore(x: Setup, a: Machine, c: Machine, b: Machine, n: nat)
    requires Reaches(x, a, c, n) && Next(x, c, b)
    ensures Reaches(x, a, b, n + 1)
  {
  }

  lemma StepTo(x: Setup, a: Machine, c: Machine, b: Machine, n: nat)
    requires Reaches(x, a, c, n) && (Begins(x, c, b) || Writes(x, c, b))
    ensures Reaches(x, a, b, n + 1)
  {
    hide Begins, Writes;
    OneMore(x, a, c, b, n);
  }

  lemma {:induction false} ReachedIsSafe(x: Setup, a: Machine, b: Machine, n: nat)
    requires Sound(x) && Invariant(x, a) && Reaches(x, a, b, n)
    ensures Invariant(x, b) && Safe(x, b)
    decreases n
  {
    hide Sound, Invariant, Safe, Next;
    if n == 0 {
      InvariantSafe(x, a);
    } else {
      var c :| Reaches(x, a, c, n - 1) && Next(x, c, b);
      ReachedIsSafe(x, a, c, n - 1);
      StepKeeps(x, c, b);
      InvariantSafe(x, b);
    }
  }

  lemma OneWrite(s: Store, p: Put)
    ensures After(s, [p]) == s[p.uri := p.blob]
  {
    assert [p][1..] == [];
  }

  function Written(x: Setup, a: Machine, k: nat): Machine
    requires k <= |PlanOn(x, a.store).puts|
  {
    a.(phase := Rewriting(a.store, k), store := After(a.store, PlanOn(x, a.store).puts[..k]))
  }

  /** The first k planned writes are k steps after the start of a process. */
  lemma {:induction false} WritesReached(x: Setup, a: Machine, k: nat)
    requires a.phase.Idle? && PointerOf(a.st, x.id) == Some(x.loc) && !x.env.m.UnderTarget(x.loc)
    requires k <= |PlanOn(x, a.store).puts|
    ensures Reaches(x, a, Written(x, a, k), k + 1)
  {
    hide PlanOn, Reaches, Next;
    var puts := PlanOn(x, a.store).puts;
    if k == 0 {
      assert puts[..0] == [];
      assert Begins(x, a, Written(x, a, 0));
      Stays(x, a);
      StepTo(x, a, a, Written(x, a, 0), 0);
    } else {
      WritesReached(x, a, k - 1);
      assert puts[..k] == puts[..k - 1] + [puts[k - 1]];
      AfterConcat(a.store, puts[..k - 1], [puts[k - 1]]);
      OneWrite(After(a.store, puts[..k - 1]), puts[k - 1]);
      hide After;
      assert Writes(x, Written(x, a, k - 1), Written(x, a, k));
      StepTo(x, a, Written(x, a, k - 1), Written(x, a, k), k);
    }
  }

  /** A rewrite cut short anywhere, its last PUT possibly damaged, is a path that ends idle. */
  lemma InterruptionReached(x: Setup, a: Machine, done: seq<Put>) returns (n: nat)
    requires a.phase.Idle? && PointerOf(a.st, x.id) == Some(x.loc) && !x.env.m.UnderTarget(x.loc)
    requires Interrupted(done, PlanOn(x, a.store).puts)
    ensures Reaches(x, a, a.(store := After(a.store, done)), n)
  {
    hide PlanOn, After, Reaches;
    var puts, k := PlanOn(x, a.store).puts, |done|;
    var b := a.(store := After(a.store, done));
    if done == puts[..k] {
      WritesReached(x, a, k);
      assert Stops(Written(x, a, k), b);
      OneMore(x, a, Written(x, a, k), b, k + 1);
      n := k + 2;
    } else {
      var last := done[k - 1];
      WritesReached(x, a, k - 1);
      assert done[..k - 1] == puts[..k - 1];
      assert done == puts[..k - 1] + [last];
      AfterConcat(a.store, puts[..k - 1], [last]);
      OneWrite(After(a.store, puts[..k - 1]), last);
      assert Spoils(x, Written(x, a, k - 1), b);
      OneMore(x, a, Written(x, a, k - 1), b, k);
      n := k + 1;
    }
  }

  function Called(x: Setup, a: Machine, q: Request, i: nat): Machine
    requires i <= |SwapOutcome(a.st, q).events|
  {
    Machine(Swapping(a.st, q, i), After(a.store, PlanOn(x, a.store).puts),
            StatesOf(a.st, SwapOutcome(a.st, q).events)[i],
            OpenAfter(a.dropped, SwapOutcome(a.st, q).events[..i]))
  }

  /** The catalog calls of the swap follow, one step each. */
  lemma {:induction false} CallsReached(x: Setup, a: Machine, q: Request, i: nat)
    requires a.phase.Idle? && PointerOf(a.st, x.id) == Some(x.loc) && !x.env.m.UnderTarget(x.loc) && !x.opts.dry
    requires PlanOn(x, a.store).res.Success?
    requires q.id == x.id && q.oldLoc == x.loc && q.newLoc == PlanOn(x, a.store).res.value.newLoc
    requires i <= |SwapOutcome(a.st, q).events|
    ensures Reaches(x, a, Called(x, a, q, i), |PlanOn(x, a.store).puts| + 2 + i)
  {
    hide PlanOn, SwapOutcome, After, Reaches, OpenAfter;
    var puts := PlanOn(x, a.store).puts;
    var events := SwapOutcome(a.st, q).events;
    if i == 0 {
      WritesReached(x, a, |puts|);
      assert puts[..|puts|] == puts;
      NothingOpened(a.dropped, events);
      assert StartsSwap(x, Written(x, a, |puts|), Called(x, a, q, 0));
      OneMore(x, a, Written(x, a, |puts|), Called(x, a, q, 0), |puts| + 1);
    } else {
      CallsReached(x, a, q, i - 1);
      OpenStep(a.dropped, events, i - 1);
      assert Calls(Called(x, a, q, i - 1), Called(x, a, q, i));
      OneMore(x, a, Called(x, a, q, i - 1), Called(x, a, q, i), |puts| + 1 + i);
    }
  }

  lemma NothingOpened(open: bool, events: seq<Event>)
    ensures OpenAfter(open, events[..0]) == open
  {
  }

  /** A migration whose rewrite succeeds and is not a dry run goes through its swap, and then stops. */
  lemma SwapReached(x: Setup, a: Machine, q: Request) returns (b: Machine, n: nat)
    requires a.phase.Idle? && PointerOf(a.st, x.id) == Some(x.loc) && !x.env.m.UnderTarget(x.loc) && !x.opts.dry
    requires PlanOn(x, a.store).res.Success?
    requires q.id == x.id && q.oldLoc == x.loc && q.newLoc == PlanOn(x, a.store).res.value.newLoc
    ensures b.phase.Idle? && b.store == After(a.store, PlanOn(x, a.store).puts) && b.st == SwapOutcome(a.st, q).final
    ensures Reaches(x, a, b, n)
  {
    hide PlanOn, After, Reaches, SwapOutcome;
    var events := SwapOutcome(a.st, q).events;
    CallsReached(x, a, q, |events|);
    FinalIsLast(a.st, q);
    var c := Called(x, a, q, |events|);
    b, n := c.(phase := Idle), |PlanOn(x, a.store).puts| + 3 + |events|;
    assert Stops(c, b);
    OneMore(x, a, c, b, n - 1);
  }

  /** What migrateOne does when it gets s and st and leaves s' and st'; under a storage fault, puts are what landed. */
  ghost predicate Attempted(x: Setup, noValidate: bool, w: World, s: Store, st: State,
                            v: Verdict, s': Store, st': State, faulted: bool, puts: seq<Put>)
  {
    var c := Settings(x.env, x.opts, noValidate);
    if faulted then st' == st && v.Failed? && s' == After(s, puts) && Interrupted(puts, PlannedWrites(c, s, st, x.id, w))
    else MigrateOutcome(c, s, st, x.id, w) == Migration(v, s', st')
  }

  /** Whatever migrateOne meets, the store and the pointers it leaves are those of a machine state reached from the one
      it started in: the table may be at its old location, already migrated, or gone. */
  lemma MigrationReached(x: Setup, noValidate: bool, a: Machine, w: World,
                         v: Verdict, s': Store, st': State, faulted: bool, puts: seq<Put>)
    returns (b: Machine, n: nat)
    requires a.phase.Idle? && x.loc != "" && !x.env.m.UnderTarget(x.loc)
    requires match PointerOf(a.st, x.id) case None => true case Some(p) => p == x.loc || x.env.m.UnderTarget(p)
    requires Attempted(x, noValidate, w, a.store, a.st, v, s', st', faulted, puts)
    ensures b.phase.Idle? && b.store == s' && b.st == st' && Reaches(x, a, b, n)
  {
    hide PlanTable, After, Reaches, SwapOutcome;
    var plan := PlanOn(x, a.store);
    NoWrites(a.store);
    InterruptedNothing(plan.puts);
    if PointerOf(a.st, x.id) != Some(x.loc) || (!faulted && !w.load) {
      Stays(x, a);
      b, n := a, 0;
    } else if faulted {
      n := InterruptionReached(x, a, puts);
      b := a.(store := After(a.store, puts));
    } else if plan.res.Failure? || x.opts.dry {
      n := InterruptionReached(x, a, plan.puts);
      b := a.(store := After(a.store, plan.puts));
    } else {
      OldLocKept(x.env, x.opts, a.store, x.loc);
      b, n := SwapReached(x, a, SwapRequest(x.id, x.loc, plan.res.value.newLoc, w));
    }
  }

  lemma NoWrites(s: Store)
    ensures After(s, []) == s
  {
  }

  lemma Stays(x: Setup, a: Machine)
    ensures Reaches(x, a, a, 0)
  {
  }

  lemma InterruptedNothing(plan: seq<Put>)
    ensures Interrupted([], plan)
  {
  }

  /** So a migration that starts in a safe moment ends in one. */
  lemma MigrationSafe(x: Setup, noValidate: bool, a: Machine, w: World,
                      v: Verdict, s': Store, st': State, faulted: bool, puts: seq<Put>)
    returns (b: Machine)
    requires Sound(x) && Invariant(x, a) && a.phase.Idle? && x.loc != ""
    requires Attempted(x, noValidate, w, a.store, a.st, v, s', st', faulted, puts)
    ensures b.phase.Idle? && b.store == s' && b.st == st'
    ensures Invariant(x, b) && Safe(x, b)
  {
    NotBoth(x.env.m, x.loc);
    KnownPointer(x, a);
    hide Sound, Invariant, Attempted, Reaches, Safe;
    var n;
    b, n := MigrationReached(x, noValidate, a, w, v, s', st', faulted, puts);
    ReachedIsSafe(x, a, b, n);
  }

  /** In a safe moment a pointer other than the old one is under the target. */
  lemma KnownPointer(x: Setup, a: Machine)
    requires Sound(x) && Invariant(x, a)
    ensures match PointerOf(a.st, x.id) case None => true case Some(p) => p == x.loc || x.env.m.UnderTarget(p)
  {
    if PointerOf(a.st, x.id).Some? && PointerOf(a.st, x.id) != Some(x.loc) {
      NewLocation(x.env, x.opts, x.s0, x.loc);
      ApplyLands(x.env.m, x.loc);
    }
    hide PlanTable, Preservable, CurrentKept, FullyWritten, Contained, PhaseKnown;
  }
}

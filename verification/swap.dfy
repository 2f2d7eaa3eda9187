/** internal/catalog/rest/rest.go: re-pointing a table, against a server that may answer each call in several ways. */
module Swap {
  import opened Wrappers
  import opened Prefix

  datatype Identifier = Identifier(ns: seq<string>, name: string)

  type Pointers = map<Identifier, Uri>

  // Replies.

  datatype Reply =
    | Accepted
    | HttpError(status: int, bodyNamesAlreadyExists: bool)
    | TransportError

  predicate IsAlreadyExists(r: Reply) {
    r.HttpError? && (r.status == 409 || (400 <= r.status < 500 && r.bodyNamesAlreadyExists))
  }

  predicate IsBadRequest(r: Reply) {
    r.HttpError? && r.status == 400
  }

  /** A server's answer to a write; took tells whether a call that reports failure had its effect all the same. */
  datatype Answer = Answer(reply: Reply, took: bool) {
    predicate Effective() {
      reply.Accepted? || took
    }

    /** A failed call has no effect. */
    predicate Faithful() {
      took ==> reply.Accepted?
    }
  }

  /** The answers that one swap would get, call by call; load covers the client's initialisation and the reload. */
  datatype Answers = Answers(load: bool, overwrite: Answer, drop: Answer, register: Answer, rollback: Answer) {
    predicate Faithful() {
      overwrite.Faithful() && drop.Faithful() && register.Faithful() && rollback.Faithful()
    }
  }

  /** The context a call runs under: the caller's, which a signal cancels, or one detached from it. */
  datatype Ctx = Caller | Detached

  /** What a call gets: under a cancelled context it fails in transport, whatever the server made of it. */
  function Delivered(ctx: Ctx, cancelled: bool, a: Answer): Answer {
    if ctx.Caller? && cancelled then Answer(TransportError, a.Effective()) else a
  }

  datatype Mode = Unknown | Atomic | DropRegister

  /** The client's cached mode and the server's pointers. */
  datatype State = State(mode: Mode, pointers: Pointers)

  datatype Call = Reload | Overwrite(loc: Uri) | Drop | Register(loc: Uri)

  /** One call of a swap, its reply, and the state it leaves. */
  datatype Event = Event(id: Identifier, call: Call, ctx: Ctx, reply: Reply, after: State)

  datatype SwapResult =
    | Swapped
    | EmptyLocation
    | ReloadFailed
    | Drifted            // ErrCatalogDrift
    | OverwriteFailed
    | DropFailed
    | RolledBack         // register failed, the old location was registered again
    | Stranded           // register and rollback both failed, and the error says so

  datatype Outcome = Outcome(result: SwapResult, events: seq<Event>, final: State)

  /** The caller's request; cancelAt is the number of calls issued before the caller's context is cancelled. */
  datatype Request = Request(id: Identifier, oldLoc: Uri, newLoc: Uri, answers: Answers, cancelAt: nat)

  // The effects of the three writes.

  function Pointed(st: State, id: Identifier, loc: Uri, a: Answer): State {
    if a.Effective() then st.(pointers := st.pointers[id := loc]) else st
  }

  function Dropped(st: State, id: Identifier, a: Answer): State {
    if a.Effective() then st.(pointers := st.pointers - {id}) else st
  }

  /** swapByDropRegister, entered after n calls. It runs under its own, detached context. */
  function DropAndRegister(st: State, q: Request, n: nat): Outcome {
    var drop := Delivered(Detached, q.cancelAt <= n, q.answers.drop);
    var st1 := Dropped(st, q.id, drop);
    var dropped := Event(q.id, Drop, Detached, drop.reply, st1);
    if !drop.reply.Accepted? then Outcome(DropFailed, [dropped], st1)
    else
      var register := Delivered(Detached, q.cancelAt <= n + 1, q.answers.register);
      var st2 := Pointed(st1, q.id, q.newLoc, register);
      var registered := Event(q.id, Register(q.newLoc), Detached, register.reply, st2);
      if register.reply.Accepted? then Outcome(Swapped, [dropped, registered], st2)
      else
        var rollback := Delivered(Detached, q.cancelAt <= n + 2, q.answers.rollback);
        var st3 := Pointed(st2, q.id, q.oldLoc, rollback);
        var rolledBack := Event(q.id, Register(q.oldLoc), Detached, rollback.reply, st3);
        Outcome(if rollback.reply.Accepted? then RolledBack else Stranded, [dropped, registered, rolledBack], st3)
  }

  function Preceded(e: Event, o: Outcome): Outcome {
    o.(events := [e] + o.events)
  }

  /** The overwriting register and what follows it, in a mode that tries it. */
  function TryOverwrite(st: State, q: Request): Outcome {
    var a := Delivered(Caller, q.cancelAt <= 1, q.answers.overwrite);
    var st1 := Pointed(st, q.id, q.newLoc, a);
    if st.mode.Atomic? then
      Outcome(if a.reply.Accepted? then Swapped else OverwriteFailed, [Event(q.id, Overwrite(q.newLoc), Caller, a.reply, st1)], st1)
    else if a.reply.Accepted? then
      var st2 := st1.(mode := Atomic);
      Outcome(Swapped, [Event(q.id, Overwrite(q.newLoc), Caller, a.reply, st2)], st2)
    else if IsAlreadyExists(a.reply) then
      var st2 := st1.(mode := DropRegister);
      Preceded(Event(q.id, Overwrite(q.newLoc), Caller, a.reply, st2), DropAndRegister(st2, q, 2))
    else if IsBadRequest(a.reply) then
      Preceded(Event(q.id, Overwrite(q.newLoc), Caller, a.reply, st1), DropAndRegister(st1, q, 2))
    else
      Outcome(OverwriteFailed, [Event(q.id, Overwrite(q.newLoc), Caller, a.reply, st1)], st1)
  }

  /** SwapMetadataLocation. */
  function SwapOutcome(st: State, q: Request): Outcome {
    if q.oldLoc == "" || q.newLoc == "" then Outcome(EmptyLocation, [], st)
    else if q.oldLoc == q.newLoc then Outcome(Swapped, [], st)
    else
      var ok := q.cancelAt > 0 && q.answers.load && q.id in st.pointers && st.pointers[q.id] != "";
      var reload := Event(q.id, Reload, Caller, if ok then Accepted else TransportError, st);
      if !ok then Outcome(ReloadFailed, [reload], st)
      else if st.pointers[q.id] != q.oldLoc then Outcome(Drifted, [reload], st)
      else Preceded(reload, if st.mode.DropRegister? then DropAndRegister(st, q, 1) else TryOverwrite(st, q))
  }

  // The client and the server as objects.

  class Server {
    var pointers: Pointers

    constructor (pointers: Pointers)
      ensures this.pointers == pointers
    {
      this.pointers := pointers;
    }

    /** LoadTable: an absent table and an empty location are errors. */
    method LoadTable(id: Identifier, works: bool) returns (loc: Option<Uri>)
      ensures loc == if works && id in pointers && pointers[id] != "" then Some(pointers[id]) else None
    {
      return if works && id in pointers && pointers[id] != "" then Some(pointers[id]) else None;
    }

    method DropTable(id: Identifier, a: Answer) returns (reply: Reply)
      modifies this
      ensures reply == a.reply && pointers == if a.Effective() then old(pointers) - {id} else old(pointers)
    {
      if a.Effective() {
        pointers := pointers - {id};
      }
      return a.reply;
    }

    method RegisterTable(id: Identifier, loc: Uri, a: Answer) returns (reply: Reply)
      modifies this
      ensures reply == a.reply && pointers == if a.Effective() then old(pointers)[id := loc] else old(pointers)
    {
      if a.Effective() {
        pointers := pointers[id := loc];
      }
      return a.reply;
    }
  }

  class Client {
    const server: Server
    var swapMode: Mode
    ghost var log: seq<Event>

    constructor (server: Server)
      ensures this.server == server && swapMode == Unknown && log == []
    {
      this.server, swapMode, log := server, Unknown, [];
    }

    function Now(): State
      reads this, server
    {
      State(swapMode, server.pointers)
    }

    method SwapMetadataLocation(q: Request) returns (r: SwapResult)
      modifies this, server
      ensures var o := SwapOutcome(old(Now()), q);
              r == o.result && Now() == o.final && log == old(log) + o.events
    {
      hide DropAndRegister, IsAlreadyExists, IsBadRequest, Delivered;
      if q.oldLoc == "" || q.newLoc == "" {
        return EmptyLocation;
      }
      if q.oldLoc == q.newLoc {
        return Swapped;
      }
      var current := server.LoadTable(q.id, q.cancelAt > 0 && q.answers.load);
      log := log + [Event(q.id, Reload, Caller, if current.Some? then Accepted else TransportError, Now())];
      if current.None? {
        return ReloadFailed;
      }
      if current.value != q.oldLoc {
        return Drifted;
      }
      if swapMode.DropRegister? {
        r := SwapByDropRegister(q, 1);
        return;
      }
      ghost var st, reload := old(Now()), Event(q.id, Reload, Caller, Accepted, old(Now()));
      assert SwapOutcome(st, q) == Preceded(reload, TryOverwrite(st, q)) && log == old(log) + [reload];
      hide SwapOutcome;
      var a := Delivered(Caller, q.cancelAt <= 1, q.answers.overwrite);
      var reply := server.RegisterTable(q.id, q.newLoc, a);
      if swapMode.Atomic? {
        log := log + [Event(q.id, Overwrite(q.newLoc), Caller, reply, Now())];
        return if reply.Accepted? then Swapped else OverwriteFailed;
      }
      if reply.Accepted? {
        swapMode := Atomic;
        log := log + [Event(q.id, Overwrite(q.newLoc), Caller, reply, Now())];
        return Swapped;
      }
      if IsAlreadyExists(reply) {
        swapMode := DropRegister;
        log := log + [Event(q.id, Overwrite(q.newLoc), Caller, reply, Now())];
        r := SwapByDropRegister(q, 2);
      } else if IsBadRequest(reply) {
        log := log + [Event(q.id, Overwrite(q.newLoc), Caller, reply, Now())];
        r := SwapByDropRegister(q, 2);
      } else {
        log := log + [Event(q.id, Overwrite(q.newLoc), Caller, reply, Now())];
        return OverwriteFailed;
      }
    }

    /** The critical section, entered after n calls; its calls do not run under the caller's context. */
    method SwapByDropRegister(q: Request, n: nat) returns (r: SwapResult)
      modifies this`log, server
      ensures var o := DropAndRegister(old(Now()), q, n);
              r == o.result && Now() == o.final && log == old(log) + o.events
    {
      hide Delivered;
      var dropped := server.DropTable(q.id, Delivered(Detached, q.cancelAt <= n, q.answers.drop));
      log := log + [Event(q.id, Drop, Detached, dropped, Now())];
      if !dropped.Accepted? {
        return DropFailed;
      }
      var registered := server.RegisterTable(q.id, q.newLoc, Delivered(Detached, q.cancelAt <= n + 1, q.answers.register));
      log := log + [Event(q.id, Register(q.newLoc), Detached, registered, Now())];
      if !registered.Accepted? {
        var rolledBack := server.RegisterTable(q.id, q.oldLoc, Delivered(Detached, q.cancelAt <= n + 2, q.answers.rollback));
        log := log + [Event(q.id, Register(q.oldLoc), Detached, rolledBack, Now())];
        return if rolledBack.Accepted? then RolledBack else Stranded;
      }
      return Swapped;
    }
  }

  // One swap.

  function PointerOf(st: State, id: Identifier): Option<Uri> {
    if id in st.pointers then Some(st.pointers[id]) else None
  }

  /** The states of a swap, from the one it starts in to the one after its last call: a kill may leave any of them. */
  function StatesOf(st: State, events: seq<Event>): seq<State> {
    [st] + seq(|events|, i requires 0 <= i < |events| => events[i].after)
  }

  /** The catalog contract when a failed call has no effect: success means the pointer is new, any error means every
      pointer is as at entry, except when register and rollback both fail after the drop, which is reported as such. */
  lemma SwapContract(st: State, q: Request)
    requires q.answers.Faithful() && Delivered(Caller, q.cancelAt <= 1, q.answers.overwrite).Faithful()
    ensures var o := SwapOutcome(st, q);
            && (o.result.Swapped? && q.oldLoc != q.newLoc ==> o.final.pointers == st.pointers[q.id := q.newLoc])
            && (o.result.Swapped? && q.oldLoc == q.newLoc ==> o.final == st)
            && (!o.result.Swapped? && !o.result.Stranded? ==> o.final.pointers == st.pointers)
            && (o.result.Stranded? ==> o.final.pointers == st.pointers - {q.id} && q.id in st.pointers)
  {
    assert forall c: bool, a: Answer :: Delivered(Detached, c, a) == a;
    hide Delivered, IsAlreadyExists, IsBadRequest;
    if q.id in st.pointers && st.pointers[q.id] == q.oldLoc {
      assert (st.pointers - {q.id})[q.id := q.oldLoc] == st.pointers;
      assert (st.pointers - {q.id})[q.id := q.newLoc] == st.pointers[q.id := q.newLoc];
    }
  }

  /** A nil result with equal locations says nothing about the pointer: it is then new exactly if it was before. */
  lemma NilMeansNewIff(st: State, q: Request)
    requires SwapOutcome(st, q).result.Swapped?
    ensures PointerOf(SwapOutcome(st, q).final, q.id) == Some(q.newLoc) <==>
            q.oldLoc != q.newLoc || PointerOf(st, q.id) == Some(q.newLoc)
  {
  }

  /** Exactly when a swap can strand the table: from the cached drop+register mode, or when the answer to the probe is a
      400, a 409, or any 4xx that names the duplicate. */
  predicate MayDrop(st: State, q: Request) {
    && q.oldLoc != "" && q.newLoc != "" && q.oldLoc != q.newLoc
    && q.cancelAt > 0 && q.answers.load && PointerOf(st, q.id) == Some(q.oldLoc)
    && match st.mode
       case Atomic => false
       case DropRegister => true
       case Unknown =>
         match Delivered(Caller, q.cancelAt <= 1, q.answers.overwrite).reply
         case HttpError(status, duplicate) => status == 400 || status == 409 || (401 <= status <= 499 && duplicate)
         case _ => false
  }

  lemma StrandedIff(st: State, q: Request)
    ensures SwapOutcome(st, q).result.Stranded? <==>
            && MayDrop(st, q)
            && q.answers.drop.reply.Accepted?
            && !q.answers.register.reply.Accepted?
            && !q.answers.rollback.reply.Accepted?
  {
  }

  /** What may be seen during a swap that starts in st0: the pointer as at entry, absent, or new where it was old; other
      tables as they were. */
  ghost predicate Seen(st0: State, q: Request, now: State) {
    && (|| PointerOf(now, q.id) == PointerOf(st0, q.id)
        || PointerOf(now, q.id) == None
        || (PointerOf(now, q.id) == Some(q.newLoc) && PointerOf(st0, q.id) == Some(q.oldLoc)))
    && forall id | id != q.id :: PointerOf(now, id) == PointerOf(st0, id)
  }

  lemma SeenAfterWrite(st0: State, q: Request, st: State, a: Answer, mode: Mode)
    requires Seen(st0, q, st) && PointerOf(st0, q.id) == Some(q.oldLoc)
    ensures Seen(st0, q, Pointed(st, q.id, q.newLoc, a)) && Seen(st0, q, Pointed(st, q.id, q.oldLoc, a))
    ensures Seen(st0, q, Dropped(st, q.id, a)) && Seen(st0, q, st.(mode := mode))
  {
  }

  lemma SectionSeen(st0: State, q: Request, st: State, n: nat)
    requires Seen(st0, q, st) && PointerOf(st0, q.id) == Some(q.oldLoc)
    ensures forall e | e in DropAndRegister(st, q, n).events :: Seen(st0, q, e.after)
    ensures Seen(st0, q, DropAndRegister(st, q, n).final)
  {
    hide Seen, Pointed, Dropped, PointerOf, Delivered;
    var drop := Delivered(Detached, q.cancelAt <= n, q.answers.drop);
    var register := Delivered(Detached, q.cancelAt <= n + 1, q.answers.register);
    var rollback := Delivered(Detached, q.cancelAt <= n + 2, q.answers.rollback);
    var st1 := Dropped(st, q.id, drop);
    var st2 := Pointed(st1, q.id, q.newLoc, register);
    SeenAfterWrite(st0, q, st, drop, Unknown);
    SeenAfterWrite(st0, q, st1, register, Unknown);
    SeenAfterWrite(st0, q, st2, rollback, Unknown);
  }

  lemma OverwriteSeen(st: State, q: Request)
    requires PointerOf(st, q.id) == Some(q.oldLoc)
    ensures forall e | e in TryOverwrite(st, q).events :: Seen(st, q, e.after)
    ensures Seen(st, q, TryOverwrite(st, q).final)
  {
    assert Seen(st, q, st);
    hide Seen, Pointed, PointerOf, DropAndRegister, Delivered, IsAlreadyExists, IsBadRequest;
    var a := Delivered(Caller, q.cancelAt <= 1, q.answers.overwrite);
    var st1 := Pointed(st, q.id, q.newLoc, a);
    SeenAfterWrite(st, q, st, a, Unknown);
    SeenAfterWrite(st, q, st1, a, Atomic);
    SeenAfterWrite(st, q, st1, a, DropRegister);
    SectionSeen(st, q, st1, 2);
    SectionSeen(st, q, st1.(mode := DropRegister), 2);
  }

  /** Ambiguous replies, one swap: at every moment the pointer is as at entry, absent, or new; other tables are
      untouched. Anything but the entry pointer is seen only if that was the old location. */
  lemma SwapStates(st: State, q: Request, i: nat)
    requires i <= |SwapOutcome(st, q).events|
    ensures Seen(st, q, StatesOf(st, SwapOutcome(st, q).events)[i])
    ensures Seen(st, q, SwapOutcome(st, q).final)
  {
    assert Seen(st, q, st);
    if PointerOf(st, q.id) == Some(q.oldLoc) {
      OverwriteSeen(st, q);
      SectionSeen(st, q, st, 1);
    }
    hide Seen, TryOverwrite, DropAndRegister;
    var o := SwapOutcome(st, q);
    if i > 0 {
      assert o.events[i - 1] in o.events;
    }
  }

  /** A drop is issued exactly in the cached drop+register mode, or after an already-exists or 400 answer to the probe. */
  lemma DropIssuedIff(st: State, q: Request)
    ensures MayDrop(st, q) <==> exists e | e in SwapOutcome(st, q).events :: e.call.Drop?
  {
    var o := SwapOutcome(st, q);
    if MayDrop(st, q) {
      var at := if st.mode.DropRegister? then 1 else 2;
      assert o.events[at] in o.events && o.events[at].call.Drop?;
    }
  }

  /** The pointer is at the old location, and a swap in unknown mode gets as far as its probe. */
  predicate Probes(st: State, q: Request) {
    && q.oldLoc != "" && q.newLoc != "" && q.oldLoc != q.newLoc
    && q.cancelAt > 0 && q.answers.load && PointerOf(st, q.id) == Some(q.oldLoc)
    && st.mode.Unknown?
  }

  /** What each answer to the probe does. A drop follows exactly a 400, a 409, or a 4xx that names the duplicate; of these,
      all but a bare 400 cache drop+register. Success caches atomic. After any other answer the mode stays unknown, the
      error is returned, and nothing is called. */
  lemma ProbeByStatus(st: State, q: Request)
    requires Probes(st, q)
    ensures var o := SwapOutcome(st, q);
            && |o.events| >= 2 && o.events[0].call.Reload? && o.events[1].call == Overwrite(q.newLoc)
            && match o.events[1].reply
               case Accepted => o.result.Swapped? && o.final.mode == Atomic && |o.events| == 2
               case TransportError => o.result.OverwriteFailed? && o.final.mode == Unknown && |o.events| == 2
               case HttpError(status, duplicate) =>
                 var rejected := status == 409 || (duplicate && 399 < status && status < 500);
                 && o.final.mode == (if rejected then DropRegister else Unknown)
                 && ((exists e | e in o.events :: e.call.Drop?) <==> rejected || status == 400)
                 && (rejected || status == 400 ==> |o.events| > 2 && o.events[2].call.Drop?)
                 && (!rejected && status != 400 ==> o.result.OverwriteFailed? && |o.events| == 2)
  {
    hide Delivered, Pointed, Dropped;
    ModesOfEffects();
    DropIssuedIff(st, q);
  }

  /** A conflict falls back and is remembered; a refusal of another kind neither, unless its body names the duplicate; a
      bad request falls back and is not remembered. */
  lemma ProbeCodes(st: State, q: Request)
    requires Probes(st, q) && q.cancelAt > 1
    ensures var reply, o := q.answers.overwrite.reply, SwapOutcome(st, q);
            var drops := exists e | e in o.events :: e.call.Drop?;
            && (reply == HttpError(409, false) ==> drops && o.final.mode == DropRegister)
            && (reply == HttpError(403, false) ==> !drops && o.final.mode == Unknown && o.result.OverwriteFailed?)
            && (reply == HttpError(403, true) ==> drops && o.final.mode == DropRegister)
            && (reply == HttpError(400, false) ==> drops && o.final.mode == Unknown)
            && (reply == HttpError(400, true) ==> drops && o.final.mode == DropRegister)
            && (reply == HttpError(500, true) ==> !drops && o.final.mode == Unknown && o.result.OverwriteFailed?)
  {
    ProbeByStatus(st, q);
    hide Pointed, Dropped, DropAndRegister;
  }

  /** The result that belongs to a last call with this reply. */
  ghost predicate Names(q: Request, r: SwapResult, last: Event) {
    && (r.Swapped? <==> (last.call == Overwrite(q.newLoc) || last.call == Register(q.newLoc)) && last.reply.Accepted?)
    && (r.ReloadFailed? <==> last.call.Reload? && !last.reply.Accepted?)
    && (r.Drifted? <==> last.call.Reload? && last.reply.Accepted?)
    && (r.OverwriteFailed? <==> last.call.Overwrite? && !last.reply.Accepted?)
    && (r.DropFailed? <==> last.call.Drop? && !last.reply.Accepted?)
    && (r.RolledBack? <==> last.call == Register(q.oldLoc) && last.reply.Accepted?)
    && (r.Stranded? <==> last.call == Register(q.oldLoc) && !last.reply.Accepted?)
    && !r.EmptyLocation?
  }

  lemma SectionNames(st: State, q: Request, n: nat)
    requires q.oldLoc != q.newLoc
    ensures var o := DropAndRegister(st, q, n); o.events != [] && Names(q, o.result, o.events[|o.events| - 1])
  {
    hide Pointed, Dropped, Delivered;
  }

  lemma OverwriteNames(st: State, q: Request)
    requires q.oldLoc != q.newLoc
    ensures var o := TryOverwrite(st, q); o.events != [] && Names(q, o.result, o.events[|o.events| - 1])
  {
    var st1 := Pointed(st, q.id, q.newLoc, Delivered(Caller, q.cancelAt <= 1, q.answers.overwrite));
    SectionNames(st1, q, 2);
    SectionNames(st1.(mode := DropRegister), q, 2);
    hide Pointed, Delivered, DropAndRegister, IsAlreadyExists, IsBadRequest;
  }

  /** The result names the last call made and its reply: each error is returned exactly for the call that failed. */
  lemma ResultNamesLastCall(st: State, q: Request)
    ensures var o := SwapOutcome(st, q);
            && (o.result.EmptyLocation? <==> q.oldLoc == "" || q.newLoc == "")
            && (o.events == [] <==> q.oldLoc == "" || q.newLoc == "" || q.oldLoc == q.newLoc)
            && (o.events == [] && q.oldLoc == q.newLoc && q.oldLoc != "" ==> o.result.Swapped?)
            && (o.events != [] ==> Names(q, o.result, o.events[|o.events| - 1]))
  {
    if q.oldLoc != q.newLoc {
      SectionNames(st, q, 1);
      OverwriteNames(st, q);
    }
    hide TryOverwrite, DropAndRegister;
  }

  /** The reload decides: it fails exactly when the call does or the table has no location; the swap is refused as drifted
      exactly when the location is another than the caller's. */
  lemma DriftedIff(st: State, q: Request)
    requires q.oldLoc != "" && q.newLoc != "" && q.oldLoc != q.newLoc
    ensures var o := SwapOutcome(st, q);
            var found := if q.cancelAt > 0 && q.answers.load then PointerOf(st, q.id).GetOr("") else "";
            && (o.result.ReloadFailed? <==> found == "")
            && (o.result.Drifted? <==> found != "" && found != q.oldLoc)
            && (o.result.ReloadFailed? || o.result.Drifted? ==> o.final == st)
  {
    hide Pointed, Dropped, IsAlreadyExists, IsBadRequest, Delivered;
  }

  /** Event j is a drop, and every call from it up to event i is a register that was not accepted. */
  ghost predicate UnrecoveredDrop(events: seq<Event>, j: nat, i: nat) {
    && j < i <= |events| && events[j].call.Drop?
    && forall k | j < k < i :: events[k].call.Register? && !events[k].reply.Accepted?
  }

  /** A drop, then registers; after an accepted one there is nothing but its effect. */
  ghost predicate SectionFrom(q: Request, es: seq<Event>, at: nat) {
    && at < |es| && es[at].call.Drop?
    && forall k | at < k < |es| ::
         es[k].call.Register? && (es[k].reply.Accepted? ==> k == |es| - 1 && q.id in es[k].after.pointers)
  }

  lemma SectionOrder(st: State, q: Request, n: nat)
    ensures SectionFrom(q, DropAndRegister(st, q, n).events, 0)
  {
    hide Delivered, Dropped;
  }

  lemma SectionLater(q: Request, e: Event, es: seq<Event>, at: nat)
    requires SectionFrom(q, es, at)
    ensures SectionFrom(q, [e] + es, at + 1)
  {
    forall k | at + 1 < k < |[e] + es| ensures ([e] + es)[k] == es[k - 1] {
    }
  }

  /** A rejected probe, then the section. */
  lemma ProbeThenSection(st: State, q: Request)
    requires MayDrop(st, q) && !st.mode.DropRegister?
    ensures SectionFrom(q, TryOverwrite(st, q).events, 1)
  {
    var st1 := Pointed(st, q.id, q.newLoc, Delivered(Caller, q.cancelAt <= 1, q.answers.overwrite));
    SectionOrder(st1, q, 2);
    SectionOrder(st1.(mode := DropRegister), q, 2);
    hide IsAlreadyExists, IsBadRequest, Delivered, DropAndRegister, SectionFrom, Pointed;
    var probe, section := TryOverwrite(st, q).events[0], TryOverwrite(st, q).events[1..];
    assert TryOverwrite(st, q).events == [probe] + section;
    SectionLater(q, probe, section, 0);
  }

  lemma SectionShape(st: State, q: Request)
    requires MayDrop(st, q)
    ensures SectionFrom(q, SwapOutcome(st, q).events, if st.mode.DropRegister? then 1 else 2)
  {
    if st.mode.DropRegister? {
      SectionOrder(st, q, 1);
    } else {
      ProbeThenSection(st, q);
    }
    hide IsAlreadyExists, IsBadRequest, Delivered, DropAndRegister, TryOverwrite, SectionFrom;
    var reload := SwapOutcome(st, q).events[0];
    if st.mode.DropRegister? {
      SectionLater(q, reload, DropAndRegister(st, q, 1).events, 0);
    } else {
      SectionLater(q, reload, TryOverwrite(st, q).events, 1);
    }
  }

  lemma AbsentMeansInSection(st: State, q: Request, i: nat)
    requires i <= |SwapOutcome(st, q).events|
    requires PointerOf(st, q.id) != None && PointerOf(StatesOf(st, SwapOutcome(st, q).events)[i], q.id) == None
    ensures MayDrop(st, q) && i > if st.mode.DropRegister? then 1 else 2
  {
    hide Delivered;
  }

  /** The table is absent, having been there at entry, only after an issued drop whose register and rollback have not
      been accepted since; so never in atomic mode. */
  lemma AbsentOnlyAfterDrop(st: State, q: Request, i: nat)
    requires i <= |SwapOutcome(st, q).events|
    requires PointerOf(st, q.id) != None && PointerOf(StatesOf(st, SwapOutcome(st, q).events)[i], q.id) == None
    ensures exists j :: UnrecoveredDrop(SwapOutcome(st, q).events, j, i)
    ensures MayDrop(st, q) && !st.mode.Atomic?
  {
    AbsentMeansInSection(st, q, i);
    SectionShape(st, q);
    hide SwapOutcome, MayDrop;
    assert UnrecoveredDrop(SwapOutcome(st, q).events, if st.mode.DropRegister? then 1 else 2, i);
  }

  /** Whether, after event e, some drop has had no overwrite, register or rollback accepted since. */
  predicate Opens(open: bool, e: Event) {
    e.call.Drop? || (open && !((e.call.Register? || e.call.Overwrite?) && e.reply.Accepted?))
  }

  predicate OpenAfter(open: bool, events: seq<Event>) {
    if events == [] then open else Opens(OpenAfter(open, events[..|events| - 1]), events[|events| - 1])
  }

  lemma {:induction false} OpenSinceDrop(open: bool, events: seq<Event>, j: nat, i: nat)
    requires UnrecoveredDrop(events, j, i)
    ensures OpenAfter(open, events[..i])
    decreases i
  {
    assert events[..i][..i - 1] == events[..i - 1] && events[..i][i - 1] == events[i - 1];
    if j < i - 1 {
      OpenSinceDrop(open, events, j, i - 1);
    }
  }

  lemma OpenStep(open: bool, events: seq<Event>, i: nat)
    requires i < |events|
    ensures OpenAfter(open, events[..i + 1]) == Opens(OpenAfter(open, events[..i]), events[i])
  {
    assert events[..i + 1][..i] == events[..i];
  }

  lemma FinalIsLast(st: State, q: Request)
    ensures var o := SwapOutcome(st, q); StatesOf(st, o.events)[|o.events|] == o.final
  {
  }

  /** Cancelling the caller's context once the drop can be issued changes nothing about the swap. */
  lemma CancellationAfterProbe(st: State, q: Request, later: nat)
    requires MayDrop(st, q) && later > 0
    requires st.mode.Unknown? ==> q.cancelAt > 1 && later > 1
    ensures SwapOutcome(st, q.(cancelAt := later)) == SwapOutcome(st, q)
  {
    hide DropAndRegister, IsAlreadyExists, IsBadRequest, Pointed;
    SectionIgnoresCancel(st, q, later, 1);
    var st1 := Pointed(st, q.id, q.newLoc, q.answers.overwrite);
    SectionIgnoresCancel(st1, q, later, 2);
    SectionIgnoresCancel(st1.(mode := DropRegister), q, later, 2);
  }

  /** A detached call gets the server's answer, cancelled caller or not. */
  lemma SectionIgnoresCancel(st: State, q: Request, later: nat, n: nat)
    ensures DropAndRegister(st, q.(cancelAt := later), n) == DropAndRegister(st, q, n)
  {
    hide Pointed, Dropped;
  }

  /** Event j, if it belongs to a section, runs detached and is followed by the call that the protocol owes: a register
      after an accepted drop, the rollback after a failed register. */
  ghost predicate OwedAt(q: Request, events: seq<Event>, j: nat)
    requires j < |events|
  {
    var e := events[j];
    e.call.Drop? || e.call.Register? ==>
      && e.ctx.Detached?
      && (e.call.Drop? && e.reply.Accepted? ==> j + 1 < |events| && events[j + 1].call == Register(q.newLoc))
      && (e.call == Register(q.newLoc) && !e.reply.Accepted? ==> j + 1 < |events| && events[j + 1].call == Register(q.oldLoc))
  }

  ghost predicate SectionRunsOn(q: Request, events: seq<Event>) {
    forall j | 0 <= j < |events| :: OwedAt(q, events, j)
  }

  /** The drop/register/rollback section cannot be cut short by the caller, whenever the caller cancels. */
  lemma SectionUninterrupted(st: State, q: Request)
    ensures SectionRunsOn(q, SwapOutcome(st, q).events)
  {
    hide IsAlreadyExists, IsBadRequest, Pointed, Dropped, Delivered, DropAndRegister, SectionRunsOn;
    if q.oldLoc == q.newLoc {
      NothingOwed(q, []);
      return;
    }
    var st1 := Pointed(st, q.id, q.newLoc, Delivered(Caller, q.cancelAt <= 1, q.answers.overwrite));
    SectionAlone(st, q, 1);
    SectionAlone(st1, q, 2);
    SectionAlone(st1.(mode := DropRegister), q, 2);
    NothingOwed(q, []);
    forall e: Event | e.call.Reload? || e.call.Overwrite?, es: seq<Event> | SectionRunsOn(q, es)
      ensures SectionRunsOn(q, [e] + es)
    {
      NothingOwedFirst(q, e, es);
    }
    forall e: Event | e.call.Reload? || e.call.Overwrite? ensures SectionRunsOn(q, [e]) {
      NothingOwed(q, [e]);
    }
  }

  lemma SectionAlone(st: State, q: Request, n: nat)
    requires q.oldLoc != q.newLoc
    ensures SectionRunsOn(q, DropAndRegister(st, q, n).events)
  {
    hide Pointed, Dropped, Delivered;
  }

  lemma NothingOwed(q: Request, es: seq<Event>)
    requires forall e | e in es :: e.call.Reload? || e.call.Overwrite?
    ensures SectionRunsOn(q, es)
  {
    forall j | 0 <= j < |es| ensures OwedAt(q, es, j) {
      assert es[j] in es;
    }
  }

  lemma NothingOwedFirst(q: Request, e: Event, es: seq<Event>)
    requires (e.call.Reload? || e.call.Overwrite?) && SectionRunsOn(q, es)
    ensures SectionRunsOn(q, [e] + es)
  {
    var all := [e] + es;
    forall j | 0 <= j < |all| ensures OwedAt(q, all, j) {
      if j > 0 {
        assert OwedAt(q, es, j - 1);
      }
    }
  }

  // Whole runs: many swaps through one client.

  /** A swap preceded by whatever other writers did to the catalog. */
  datatype Turn = Turn(meddling: Pointers, request: Request)

  function Entering(st: State, t: Turn): State {
    st.(pointers := st.pointers + t.meddling)
  }

  function RunEvents(st: State, turns: seq<Turn>): seq<Event>
    decreases |turns|
  {
    if turns == [] then []
    else
      var o := SwapOutcome(Entering(st, turns[0]), turns[0].request);
      o.events + RunEvents(o.final, turns[1..])
  }

  ghost predicate ProbeAccepted(events: seq<Event>) {
    exists e | e in events :: e.call.Overwrite? && e.reply.Accepted?
  }

  /** A 409, or a 4xx that names the duplicate. */
  predicate NamesDuplicate(r: Reply) {
    match r
    case HttpError(409, _) => true
    case HttpError(status, duplicate) => duplicate && 399 < status && status < 500
    case _ => false
  }

  ghost predicate ProbeRejectedAsDuplicate(events: seq<Event>) {
    exists e | e in events :: e.call.Overwrite? && NamesDuplicate(e.reply)
  }

  /** Within one swap a known mode stays, and an unknown one becomes known only through the probe's reply. */
  lemma ModeInOneSwap(st: State, q: Request, i: nat)
    requires i < |SwapOutcome(st, q).events|
    ensures var o := SwapOutcome(st, q);
            && (st.mode != Unknown ==> o.events[i].after.mode == st.mode)
            && (st.mode == Unknown && o.events[i].after.mode == Atomic ==> ProbeAccepted(o.events[..i + 1]))
            && (st.mode == Unknown && o.events[i].after.mode == DropRegister ==> ProbeRejectedAsDuplicate(o.events[..i + 1]))
  {
    LastMode(st, q);
    OverwriteModes(st, q);
    SectionModes(st, q, 1);
    hide TryOverwrite, DropAndRegister, NamesDuplicate;
    var o := SwapOutcome(st, q);
    if st.mode == Unknown && i >= 1 {
      assert o.events[1] in o.events[..i + 1];
    }
  }

  /** A probe answered with anything but success or an already-exists rejection leaves the mode unknown. */
  lemma OtherRepliesLeaveUnknown(st: State, q: Request, i: nat)
    requires st.mode == Unknown && i < |SwapOutcome(st, q).events|
    requires var e := SwapOutcome(st, q).events[i]; e.call.Overwrite? && !e.reply.Accepted? && !NamesDuplicate(e.reply)
    ensures SwapOutcome(st, q).final.mode == Unknown
  {
    hide Delivered, Pointed, Dropped;
    ModesOfEffects();
  }

  lemma ModesOfEffects()
    ensures forall st: State, id, loc, a :: Pointed(st, id, loc, a).mode == st.mode
    ensures forall st: State, id, a :: Dropped(st, id, a).mode == st.mode
  {
  }

  /** The mode cache over whole runs: once known it never changes; atomic implies an earlier accepted overwrite,
      drop+register an earlier already-exists rejection, and nothing else makes it known. */
  lemma {:induction false} ModeCache(st: State, turns: seq<Turn>, i: nat)
    requires i < |RunEvents(st, turns)|
    ensures var es := RunEvents(st, turns);
            && (st.mode != Unknown ==> es[i].after.mode == st.mode)
            && (st.mode == Unknown && es[i].after.mode == Atomic ==> ProbeAccepted(es[..i + 1]))
            && (st.mode == Unknown && es[i].after.mode == DropRegister ==> ProbeRejectedAsDuplicate(es[..i + 1]))
            && (forall j | i <= j < |es| && es[i].after.mode != Unknown :: es[j].after.mode == es[i].after.mode)
    decreases |turns|
  {
    hide SwapOutcome, NamesDuplicate;
    var q := turns[0].request;
    var st1 := Entering(st, turns[0]);
    var o := SwapOutcome(st1, q);
    var es, rest := RunEvents(st, turns), RunEvents(o.final, turns[1..]);
    assert es == o.events + rest;
    var n := |o.events|;
    LastMode(st1, q);
    if i < n {
      ModeInOneSwap(st1, q, i);
      assert es[..i + 1] == o.events[..i + 1];
      forall j | i <= j < |es| && es[i].after.mode != Unknown ensures es[j].after.mode == es[i].after.mode {
        if j >= n {
          assert es[j] == rest[j - n];
          ModeCache(o.final, turns[1..], j - n);
        }
      }
    } else {
      ModeCache(o.final, turns[1..], i - n);
      assert es[i] == rest[i - n];
      ProbesJoin(o.events, rest[..i - n + 1]);
      assert es[..i + 1] == o.events + rest[..i - n + 1];
      forall j | i <= j < |es| && es[i].after.mode != Unknown ensures es[j].after.mode == es[i].after.mode {
        assert es[j] == rest[j - n];
      }
    }
  }

  lemma ProbesJoin(a: seq<Event>, b: seq<Event>)
    ensures ProbeAccepted(a + b) <==> ProbeAccepted(a) || ProbeAccepted(b)
    ensures ProbeRejectedAsDuplicate(a + b) <==> ProbeRejectedAsDuplicate(a) || ProbeRejectedAsDuplicate(b)
  {
    forall e | e in a || e in b ensures e in a + b {
    }
  }

  lemma LastMode(st: State, q: Request)
    ensures var o := SwapOutcome(st, q);
            && (st.mode != Unknown ==> o.final.mode == st.mode)
            && (st.mode == Unknown && o.final.mode == Atomic ==> ProbeAccepted(o.events))
            && (st.mode == Unknown && o.final.mode == DropRegister ==> ProbeRejectedAsDuplicate(o.events))
            && (forall i | 0 <= i < |o.events| :: o.events[i].after.mode == if i == 0 then st.mode else o.final.mode)
  {
    OverwriteModes(st, q);
    SectionModes(st, q, 1);
    hide TryOverwrite, DropAndRegister, NamesDuplicate;
    var o := SwapOutcome(st, q);
    if |o.events| >= 2 {
      assert o.events[1] in o.events;
      assert forall i | 1 <= i < |o.events| :: o.events[i] in o.events[1..];
    }
  }

  lemma SectionModes(st: State, q: Request, n: nat)
    ensures var o := DropAndRegister(st, q, n);
            o.events != [] && o.final.mode == st.mode && forall e | e in o.events :: e.after.mode == st.mode
  {
  }

  lemma OverwriteModes(st: State, q: Request)
    ensures var o := TryOverwrite(st, q);
            && o.events != [] && o.events[0].call.Overwrite?
            && (forall e | e in o.events :: e.after.mode == o.final.mode)
            && (st.mode == Atomic ==> o.final.mode == Atomic)
            && (st.mode == Unknown && o.final.mode == Atomic ==> o.events[0].reply.Accepted?)
            && (st.mode == Unknown && o.final.mode == DropRegister ==> NamesDuplicate(o.events[0].reply))
  {
    hide DropAndRegister, Delivered;
    var st1 := Pointed(st, q.id, q.newLoc, Delivered(Caller, q.cancelAt <= 1, q.answers.overwrite));
    SectionModes(st1, q, 2);
    SectionModes(st1.(mode := DropRegister), q, 2);
  }

  /** No probe of the run was answered with a bare 400. */
  ghost predicate NoBadProbe(events: seq<Event>) {
    forall e | e in events && e.call.Overwrite? :: e.reply.HttpError? && e.reply.status == 400 ==> e.reply.bodyNamesAlreadyExists
  }

  /** Without a bare 400 answer to a probe, no state reached in atomic mode lacks a table that was there at the start. */
  lemma {:induction false} AtomicMeansPresent(st: State, turns: seq<Turn>, i: nat, id: Identifier)
    requires i < |RunEvents(st, turns)| && NoBadProbe(RunEvents(st, turns)[..i + 1])
    requires id in st.pointers && RunEvents(st, turns)[i].after.mode == Atomic
    ensures id in RunEvents(st, turns)[i].after.pointers
    decreases |turns|
  {
    hide SwapOutcome;
    var q := turns[0].request;
    var st1 := Entering(st, turns[0]);
    var o := SwapOutcome(st1, q);
    var es, rest := RunEvents(st, turns), RunEvents(o.final, turns[1..]);
    var n := |o.events|;
    assert es == o.events + rest;
    if i < n {
      assert es[..i + 1] == o.events[..i + 1];
      AtomicKeeps(st1, q, i, id);
    } else {
      assert es[..i + 1] == o.events + rest[..i - n + 1];
      NoBadProbeParts(o.events, rest[..i - n + 1]);
      ModeCache(o.final, turns[1..], i - n);
      FinalKeeps(st1, q, id);
      AtomicMeansPresent(o.final, turns[1..], i - n, id);
    }
  }

  lemma NoBadProbeParts(a: seq<Event>, b: seq<Event>)
    requires NoBadProbe(a + b)
    ensures NoBadProbe(a) && NoBadProbe(b)
  {
    forall e | e in a || e in b ensures e in a + b {
    }
  }

  /** An overwrite that ends in atomic mode is the one call, and takes no table away. */
  lemma OverwriteKeeps(st: State, q: Request, id: Identifier)
    requires id in st.pointers && st.mode != DropRegister && TryOverwrite(st, q).final.mode == Atomic
    ensures |TryOverwrite(st, q).events| == 1 && id in TryOverwrite(st, q).events[0].after.pointers
  {
    hide DropAndRegister, IsAlreadyExists, IsBadRequest, Delivered;
    var st1 := Pointed(st, q.id, q.newLoc, Delivered(Caller, q.cancelAt <= 1, q.answers.overwrite));
    SectionModes(st1, q, 2);
    SectionModes(st1.(mode := DropRegister), q, 2);
  }

  lemma AtomicKeeps(st: State, q: Request, i: nat, id: Identifier)
    requires i < |SwapOutcome(st, q).events| && id in st.pointers
    requires SwapOutcome(st, q).events[i].after.mode == Atomic
    ensures id in SwapOutcome(st, q).events[i].after.pointers
  {
    hide DropAndRegister, TryOverwrite;
    LastMode(st, q);
    if i > 0 {
      if st.mode != DropRegister && TryOverwrite(st, q).final.mode == Atomic {
        OverwriteKeeps(st, q, id);
      }
    }
  }

  /** A swap that does not end in drop+register mode and met no bare 400 drops nothing. */
  lemma FinalKeeps(st: State, q: Request, id: Identifier)
    requires id in st.pointers && SwapOutcome(st, q).final.mode != DropRegister
    requires NoBadProbe(SwapOutcome(st, q).events)
    ensures id in SwapOutcome(st, q).final.pointers
  {
    var o := SwapOutcome(st, q);
    if |o.events| >= 2 {
      assert o.events[1] in o.events;
    }
  }

  // When exactly a table is absent.

  /** The drop is issued and takes effect, and neither the register nor the rollback puts the table back. */
  predicate Strands(st: State, q: Request) {
    && MayDrop(st, q) && q.answers.drop.Effective()
    && (q.answers.drop.reply.Accepted? ==> !q.answers.register.Effective() && !q.answers.rollback.Effective())
  }

  /** A table present before a swap is absent after it exactly when the swap strands it; one that is absent stays so. */
  lemma AbsentAfterIff(st: State, q: Request, id: Identifier)
    ensures id !in SwapOutcome(st, q).final.pointers <==> id !in st.pointers || (id == q.id && Strands(st, q))
  {
    if MayDrop(st, q) {
      var st1 := Pointed(st, q.id, q.newLoc, Delivered(Caller, q.cancelAt <= 1, q.answers.overwrite));
      AbsentAfterSection(st, q, 1, id);
      AbsentAfterSection(st1, q, 2, id);
      AbsentAfterSection(st1.(mode := DropRegister), q, 2, id);
      hide DropAndRegister, IsAlreadyExists, IsBadRequest;
    } else if PointerOf(st, q.id) == Some(q.oldLoc) {
      hide DropAndRegister, IsAlreadyExists, IsBadRequest;
    }
  }

  lemma AbsentAfterSection(st: State, q: Request, n: nat, id: Identifier)
    requires q.id in st.pointers
    ensures id !in DropAndRegister(st, q, n).final.pointers <==>
            || id !in st.pointers
            || (&& id == q.id && q.answers.drop.Effective()
                && (q.answers.drop.reply.Accepted? ==> !q.answers.register.Effective() && !q.answers.rollback.Effective()))
  {
  }

  /** The client and the catalog before turn c, and as turn c enters its swap. */
  function StateAt(st: State, turns: seq<Turn>, c: nat): State
    requires c <= |turns|
  {
    if c == 0 then st else SwapOutcome(Entering(StateAt(st, turns, c - 1), turns[c - 1]), turns[c - 1].request).final
  }

  function EntryAt(st: State, turns: seq<Turn>, c: nat): State
    requires c < |turns|
  {
    Entering(StateAt(st, turns, c), turns[c])
  }

  /** The events of turn c stand in the run after those of the turns before it. */
  lemma {:induction false} TurnInRun(st: State, turns: seq<Turn>, c: nat)
    requires c <= |turns|
    ensures RunEvents(st, turns) == RunEvents(st, turns[..c]) + RunEvents(StateAt(st, turns, c), turns[c..])
    decreases c
  {
    hide SwapOutcome;
    if c == 0 {
      assert turns[..0] == [] && turns[0..] == turns;
    } else {
      TurnInRun(st, turns, c - 1);
      var s, t := StateAt(st, turns, c - 1), turns[c - 1];
      var o := SwapOutcome(Entering(s, t), t.request);
      assert turns[c - 1..][0] == t && turns[c - 1..][1..] == turns[c..];
      assert RunEvents(s, turns[c - 1..]) == o.events + RunEvents(o.final, turns[c..]);
      RunSnoc(st, turns[..c - 1], t);
      StateOfPrefix(st, turns, c - 1);
      assert turns[..c] == turns[..c - 1] + [t];
    }
  }

  lemma {:induction false} RunSnoc(st: State, turns: seq<Turn>, t: Turn)
    ensures RunEvents(st, turns + [t]) ==
            RunEvents(st, turns) + SwapOutcome(Entering(StateAt(st, turns, |turns|), t), t.request).events
    decreases |turns|
  {
    hide SwapOutcome;
    if turns == [] {
      assert turns + [t] == [t] && [t][1..] == [];
    } else {
      var o := SwapOutcome(Entering(st, turns[0]), turns[0].request);
      assert (turns + [t])[1..] == turns[1..] + [t];
      RunSnoc(o.final, turns[1..], t);
      StateOfRest(st, turns, |turns|);
    }
  }

  lemma {:induction false} StateOfRest(st: State, turns: seq<Turn>, c: nat)
    requires 0 < c <= |turns|
    ensures StateAt(st, turns, c) == StateAt(SwapOutcome(Entering(st, turns[0]), turns[0].request).final, turns[1..], c - 1)
    decreases c
  {
    hide SwapOutcome;
    if c == 1 {
      assert StateAt(st, turns, 0) == st;
    } else {
      StateOfRest(st, turns, c - 1);
      assert turns[1..][c - 2] == turns[c - 1];
    }
  }

  lemma {:induction false} StateOfPrefix(st: State, turns: seq<Turn>, c: nat)
    requires c <= |turns|
    ensures forall k: nat | k <= c :: StateAt(st, turns[..c], k) == StateAt(st, turns, k)
  {
    forall k: nat | k <= c ensures StateAt(st, turns[..c], k) == StateAt(st, turns, k) {
      StateOfPrefixAt(st, turns, c, k);
    }
  }

  lemma {:induction false} StateOfPrefixAt(st: State, turns: seq<Turn>, c: nat, k: nat)
    requires k <= c <= |turns|
    ensures StateAt(st, turns[..c], k) == StateAt(st, turns, k)
    decreases k
  {
    hide SwapOutcome;
    if k > 0 {
      StateOfPrefixAt(st, turns, c, k - 1);
    }
  }

  /** Turn t stranded id, and no other writer has put it back up to turn c. */
  ghost predicate LostSince(st: State, turns: seq<Turn>, id: Identifier, t: nat, c: nat)
    requires c <= |turns|
  {
    && t < c && turns[t].request.id == id && Strands(EntryAt(st, turns, t), turns[t].request)
    && forall u | t < u < c :: id !in turns[u].meddling
  }

  ghost predicate Lost(st: State, turns: seq<Turn>, id: Identifier, c: nat)
    requires c <= |turns|
  {
    exists t: nat :: LostSince(st, turns, id, t, c)
  }

  lemma LostLonger(st: State, turns: seq<Turn>, id: Identifier, t: nat, c: nat)
    requires 0 < c <= |turns|
    ensures LostSince(st, turns, id, t, c) <==>
            || (t == c - 1 && turns[t].request.id == id && Strands(EntryAt(st, turns, t), turns[t].request))
            || (LostSince(st, turns, id, t, c - 1) && id !in turns[c - 1].meddling)
  {
    hide Strands, EntryAt;
  }

  lemma LostStep(st: State, turns: seq<Turn>, id: Identifier, c: nat)
    requires 0 < c <= |turns|
    ensures Lost(st, turns, id, c) <==>
            || (turns[c - 1].request.id == id && Strands(EntryAt(st, turns, c - 1), turns[c - 1].request))
            || (Lost(st, turns, id, c - 1) && id !in turns[c - 1].meddling)
  {
    hide Strands, EntryAt, LostSince;
    LostLonger(st, turns, id, c - 1, c);
    if t: nat :| LostSince(st, turns, id, t, c) {
      LostLonger(st, turns, id, t, c);
    }
    var before := c - 1;
    if t: nat :| LostSince(st, turns, id, t, before) {
      LostLonger(st, turns, id, t, c);
    }
  }

  lemma {:induction false} AbsentAtIff(st: State, turns: seq<Turn>, c: nat, id: Identifier)
    requires c <= |turns| && id in st.pointers
    ensures id !in StateAt(st, turns, c).pointers <==> Lost(st, turns, id, c)
    decreases c
  {
    if c == 0 {
      hide SwapOutcome, Strands;
    } else {
      AbsentAtIff(st, turns, c - 1, id);
      AbsentAfterIff(EntryAt(st, turns, c - 1), turns[c - 1].request, id);
      LostStep(st, turns, id, c);
      hide SwapOutcome, Strands, Lost;
    }
  }

  /** The probe of a swap was answered with a bare 400. */
  predicate BadProbe(st: State, q: Request) {
    var reply := Delivered(Caller, q.cancelAt <= 1, q.answers.overwrite).reply;
    st.mode.Unknown? && reply == HttpError(400, false)
  }

  lemma {:induction false} DropRegisterStays(st: State, turns: seq<Turn>, t: nat, c: nat)
    requires t <= c <= |turns| && StateAt(st, turns, t).mode == DropRegister
    ensures StateAt(st, turns, c).mode == DropRegister
    decreases c
  {
    if t < c {
      DropRegisterStays(st, turns, t, c - 1);
      LastMode(EntryAt(st, turns, c - 1), turns[c - 1].request);
    }
  }

  /** A swap that strands a table leaves the mode drop+register, unless its probe was answered with a bare 400. */
  lemma StrandsBy(st: State, q: Request)
    requires Strands(st, q)
    ensures BadProbe(st, q) || SwapOutcome(st, q).final.mode == DropRegister
  {
    LastMode(st, q);
    var st1 := Pointed(st, q.id, q.newLoc, Delivered(Caller, q.cancelAt <= 1, q.answers.overwrite));
    SectionModes(st1.(mode := DropRegister), q, 2);
    hide DropAndRegister, IsAlreadyExists, IsBadRequest;
  }

  lemma LostByBadProbe(st: State, turns: seq<Turn>, id: Identifier, t: nat, c: nat)
    requires c <= |turns| && LostSince(st, turns, id, t, c) && StateAt(st, turns, c).mode != DropRegister
    ensures BadProbe(EntryAt(st, turns, t), turns[t].request)
  {
    hide BadProbe, Strands;
    StrandsBy(EntryAt(st, turns, t), turns[t].request);
    if StateAt(st, turns, t + 1).mode == DropRegister {
      DropRegisterStays(st, turns, t + 1, c);
    }
    hide SwapOutcome;
  }

  /** Turn t met a bare 400 and stranded id, and no other writer has put it back before the swap of turn c. */
  ghost predicate LostToBadProbe(st: State, turns: seq<Turn>, id: Identifier, t: nat, c: nat)
    requires c < |turns|
  {
    LostSince(st, turns, id, t, c) && BadProbe(EntryAt(st, turns, t), turns[t].request) && id !in turns[c].meddling
  }

  /** In a state reached in atomic mode, in turn c, a table that was there at the start is absent exactly when an earlier
      turn on it had its probe answered with a bare 400 and stranded it, and no other writer put it back since. */
  lemma AtomicAbsentIff(st: State, turns: seq<Turn>, c: nat, i: nat, id: Identifier)
    requires c < |turns| && id in st.pointers
    requires i < |SwapOutcome(EntryAt(st, turns, c), turns[c].request).events|
    requires SwapOutcome(EntryAt(st, turns, c), turns[c].request).events[i].after.mode == Atomic
    ensures id !in SwapOutcome(EntryAt(st, turns, c), turns[c].request).events[i].after.pointers <==>
            exists t: nat :: LostToBadProbe(st, turns, id, t, c)
  {
    hide SwapOutcome, Strands, BadProbe, StateAt;
    var e, q := EntryAt(st, turns, c), turns[c].request;
    AbsentAtIff(st, turns, c, id);
    LastMode(e, q);
    AtomicPresence(e, q, i, id);
    hide LostSince;
    assert (id in e.pointers) <==> !Lost(st, turns, id, c) || id in turns[c].meddling;
    if t: nat :| LostSince(st, turns, id, t, c) {
      LostByBadProbe(st, turns, id, t, c);
      if id !in turns[c].meddling {
        assert LostToBadProbe(st, turns, id, t, c);
      }
    }
  }

  lemma AtomicPresence(st: State, q: Request, i: nat, id: Identifier)
    requires i < |SwapOutcome(st, q).events| && SwapOutcome(st, q).events[i].after.mode == Atomic
    ensures id in SwapOutcome(st, q).events[i].after.pointers <==> id in st.pointers
  {
    LastMode(st, q);
    OverwriteModes(st, q);
    hide DropAndRegister, IsAlreadyExists, IsBadRequest, Delivered;
    var st1 := Pointed(st, q.id, q.newLoc, Delivered(Caller, q.cancelAt <= 1, q.answers.overwrite));
    SectionModes(st1, q, 2);
    SectionModes(st1.(mode := DropRegister), q, 2);
  }

  /** With a bare 400 the claim fails across tables: one table is stranded in unknown mode, and the next swap, of another
      table, finds the server atomic. */
  lemma StrandedThenAtomic()
    ensures exists st: State, turns: seq<Turn>, id: Identifier, i: nat ::
              && st.mode == Unknown && id in st.pointers && i < |RunEvents(st, turns)|
              && RunEvents(st, turns)[i].after.mode == Atomic
              && id !in RunEvents(st, turns)[i].after.pointers
  {
    var a, b := Identifier(["n"], "a"), Identifier(["n"], "b");
    var st := State(Unknown, map[a := "old", b := "old"]);
    var yes, no := Answer(Accepted, true), Answer(TransportError, false);
    var bad := Answer(HttpError(400, false), false);
    var q1 := Request(a, "old", "new", Answers(true, bad, yes, no, no), 9);
    var q2 := Request(b, "old", "new", Answers(true, yes, yes, yes, yes), 9);
    var o := SwapOutcome(st, q1);
    assert |o.events| == 5 && o.final == State(Unknown, map[b := "old"]);
    var t1, t2 := Turn(map[], q1), Turn(map[], q2);
    var turns := [t1, t2];
    assert Entering(st, t1) == st && Entering(o.final, t2) == o.final;
    var p := SwapOutcome(o.final, q2);
    assert |p.events| == 2 && p.events[1].after.mode == Atomic && a !in p.events[1].after.pointers;
    assert turns[1..] == [t2];
    assert RunEvents(o.final, [t2]) == p.events + RunEvents(p.final, []);
    assert RunEvents(st, turns) == o.events + RunEvents(o.final, [t2]);
    assert RunEvents(st, turns)[6] == p.events[1];
  }
}

/**
 * The idempotency protocol, step by step, for one key: any number of requests, each
 * at its own point, interleaved with crashes, time-outs, take-overs, releases and
 * purges. Work commits only together with the answer that completes its key.
 */
module IdempotencyProtocol {
  import opened Results
  import opened KeyStatements

  /** Where a request is. The clock it carries is the one it read, however long ago. */
  datatype Phase =
    | Fresh
    | Inserting(attempt: nat, now: Time)
    | Reading(attempt: nat, now: Time)
    | Turning(attempt: nat, now: Time, pk: nat, expired: bool)
    | Working(token: Token)
    | Completing(token: Token, answer: Answer, until: Time)
    | Releasing(token: Token)
    | Answered(token: Token, answer: Answer)
    | Replayed(answer: Answer)
    | TurnedAway
    | Crashed

  datatype Request = Request(ask: Ask, phase: Phase)

  /** Effects that stand, with the answer stored for them. */
  datatype Commit = Commit(epoch: nat, request: nat, ask: Ask, answer: Answer)
  datatype Served = Served(epoch: nat, request: nat, ask: Ask, answer: Answer)

  /**
   * The shared state. `lock` is the row lock an uncommitted completion holds.
   * `epoch` counts the expiries of the key's row; `commits` and `served` are the log;
   * `owners` remembers which request was given each token.
   */
  datatype World = World(
    now: Time,
    row: Option<Row>,
    nextPk: nat,
    lock: Option<nat>,
    requests: map<nat, Request>,
    epoch: nat,
    commits: seq<Commit>,
    served: seq<Served>,
    owners: map<Token, nat>)

  datatype Step =
    | Tick(elapsed: nat)
    | Arrive(id: nat, ask: Ask)
    | Begin(id: nat)
    | Insert(id: nat)
    | Read(id: nat)
    | TakeOver(id: nat)
    | Fail(id: nat)
    | Store(id: nat, answer: Answer)
    | CommitWork(id: nat)
    | AbortWork(id: nat)
    | Release(id: nat)
    | ReleaseFails(id: nat)
    | Crash(id: nat)
    | Purge

  function Put(w: World, id: nat, phase: Phase): World
    requires id in w.requests
  {
    w.(requests := w.requests[id := w.requests[id].(phase := phase)])
  }

  predicate At(w: World, id: nat) {
    id in w.requests
  }

  function Retry(w: World, id: nat, attempt: nat): World
    requires id in w.requests
  {
    if attempt + 1 < RESERVE_ATTEMPTS then Put(w, id, Inserting(attempt + 1, w.now)) else Put(w, id, TurnedAway)
  }

  function Give(w: World, id: nat, row: Row): World
    requires id in w.requests
  {
    var t := Token(row.pk, row.createdAt);
    Put(w, id, Working(t)).(row := Some(row), owners := w.owners[t := id])
  }

  predicate Expiry(w: World, clock: Time) {
    w.row.Some? && w.row.value.expiresAt <= clock
  }

  /** The step this world can take, and where it leads. None: the step is not possible here. */
  function Next(w: World, s: Step): Option<World> {
    match s
    case Tick(elapsed) => Some(w.(now := w.now + elapsed))
    case Arrive(id, ask) =>
      if id in w.requests || ask.retention <= 0 then None
      else Some(w.(requests := w.requests[id := Request(ask, Fresh)]))
    case Begin(id) =>
      if At(w, id) && w.requests[id].phase.Fresh? then Some(Put(w, id, Inserting(0, w.now))) else None
    case Insert(id) => NextInsert(w, id)
    case Read(id) => NextRead(w, id)
    case TakeOver(id) => NextTakeOver(w, id)
    case Fail(id) =>
      if At(w, id) && w.requests[id].phase.Working?
      then Some(Put(w, id, Releasing(w.requests[id].phase.token))) else None
    case Store(id, answer) => NextStore(w, id, answer)
    case CommitWork(id) => NextCommit(w, id)
    case AbortWork(id) =>
      if At(w, id) && w.requests[id].phase.Completing?
      then Some(Put(w, id, Releasing(w.requests[id].phase.token)).(lock := None)) else None
    case Release(id) =>
      if At(w, id) && w.requests[id].phase.Releasing? && w.lock.None?
      then Some(Put(w, id, TurnedAway).(row := Released(w.row, w.requests[id].phase.token)))
      else None
    case ReleaseFails(id) =>
      if At(w, id) && w.requests[id].phase.Releasing? then Some(Put(w, id, TurnedAway)) else None
    case Crash(id) =>
      if At(w, id) && !Over(w.requests[id].phase)
      then Some(Put(w, id, Crashed).(lock := if w.lock == Some(id) then None else w.lock)) else None
    case Purge =>
      if Expiry(w, w.now) && w.lock.None? then Some(w.(row := Purged(w.row, w.now), epoch := w.epoch + 1)) else None
  }

  predicate Over(p: Phase) {
    p.Answered? || p.Replayed? || p.TurnedAway? || p.Crashed?
  }

  /** The unique key lets the insert in only when there is no row. */
  function NextInsert(w: World, id: nat): Option<World> {
    if !At(w, id) || !w.requests[id].phase.Inserting? then None
    else
      var Inserting(attempt, now) := w.requests[id].phase;
      var ask := w.requests[id].ask;
      if w.row.Some? then Some(Put(w, id, Reading(attempt, now)))
      // A request reaches its insert within its own retention of reading the clock.
      else if now + ask.retention <= w.now then None
      else Some(Give(w, id, Inserted(w.nextPk, ask, now, w.now)).(nextPk := w.nextPk + 1))
  }

  function NextRead(w: World, id: nat): Option<World> {
    if !At(w, id) || !w.requests[id].phase.Reading? then None
    else
      var Reading(attempt, now) := w.requests[id].phase;
      match Judge(w.row, w.requests[id].ask, now)
      case InsertAgain => if attempt == 0 then Some(Retry(w, id, 0)) else Some(Put(w, id, TurnedAway))
      case Reused => Some(Put(w, id, TurnedAway))
      case InFlight => Some(Put(w, id, TurnedAway))
      case Replay(answer) =>
        Some(Put(w, id, Replayed(answer)).(served := w.served + [Served(w.epoch, id, w.requests[id].ask, answer)]))
      case TakeExpired => Some(Put(w, id, Turning(attempt, now, w.row.value.pk, true)))
      case TakeAbandoned => Some(Put(w, id, Turning(attempt, now, w.row.value.pk, false)))
  }

  /** The conditional update waits for the row's lock, then sees whether it still matches. */
  function NextTakeOver(w: World, id: nat): Option<World> {
    if !At(w, id) || !w.requests[id].phase.Turning? || w.lock.Some? then None
    else
      var Turning(attempt, now, pk, expired) := w.requests[id].phase;
      if !Candidate(w.row, pk, expired, now) then Some(Retry(w, id, attempt))
      else
        var given := Give(w, id, KeyStatements.TakenOver(w.row.value, w.requests[id].ask, now));
        Some(given.(epoch := if expired then w.epoch + 1 else w.epoch))
  }

  /** Inside the work's transaction: the answer is written, fenced on the reservation, not yet visible. */
  function NextStore(w: World, id: nat, answer: Answer): Option<World> {
    if !At(w, id) || !w.requests[id].phase.Working? || w.lock.Some? then None
    else
      var t := w.requests[id].phase.token;
      if Mine(w.row, t)
      then Some(Put(w, id, Completing(t, answer, w.now + w.requests[id].ask.retention)).(lock := Some(id)))
      else Some(Put(w, id, TurnedAway))
  }

  /** The work and its answer commit together. */
  function NextCommit(w: World, id: nat): Option<World> {
    if !At(w, id) || !w.requests[id].phase.Completing? || w.row.None? then None
    else
      var Completing(t, answer, until) := w.requests[id].phase;
      Some(Put(w, id, Answered(t, answer)).(
        row := Some(Completed(w.row.value, answer, until)),
        lock := None,
        commits := w.commits + [Commit(w.epoch, id, w.requests[id].ask, answer)]))
  }

  function Start(now: Time): World {
    World(now, None, 0, None, map[], 0, [], [], map[])
  }

  ghost predicate Reachable(w: World, start: World, steps: seq<Step>)
    decreases |steps|
  {
    if steps == [] then w == start
    else Next(start, steps[0]).Some? && Reachable(w, Next(start, steps[0]).value, steps[1..])
  }

  // The invariant -------------------------------------------------------------------

  /** The token a request still counts on, if it does. */
  function Held(p: Phase): Option<Token> {
    match p
    case Working(t) => Some(t)
    case Completing(t, _, _) => Some(t)
    case Releasing(t) => Some(t)
    case _ => None
  }

  predicate ClockRead(w: World, p: Phase) {
    match p
    case Inserting(_, now) => now <= w.now
    case Reading(_, now) => now <= w.now
    case Turning(_, now, _, _) => now <= w.now
    case _ => true
  }

  predicate RowSound(w: World) {
    w.row.Some? ==>
      && w.row.value.pk < w.nextPk
      && w.row.value.createdAt < w.row.value.expiresAt
      && w.row.value.createdAt <= w.now
  }

  /** Every token ever given names a row already numbered, taken no later than now, nor than its row's last taking. */
  ghost predicate TokensPast(w: World) {
    forall t :: t in w.owners ==>
      && t.pk < w.nextPk
      && (w.row.Some? && t.pk == w.row.value.pk ==> t.at <= w.row.value.createdAt)
  }

  ghost predicate HeldAreOwned(w: World) {
    forall id :: id in w.requests && Held(w.requests[id].phase).Some? ==>
      var t := Held(w.requests[id].phase).value;
      t in w.owners && w.owners[t] == id
  }

  /** A pending row asks what the request holding its token asks. */
  ghost predicate RowIsOwned(w: World) {
    w.row.Some? && IsPending(w.row.value) ==>
      var t := Token(w.row.value.pk, w.row.value.createdAt);
      && t in w.owners && w.owners[t] in w.requests
      && SameQuestion(w.row.value, w.requests[w.owners[t]].ask)
  }

  ghost predicate LockSound(w: World) {
    && (w.lock.Some? ==> w.lock.value in w.requests && w.requests[w.lock.value].phase.Completing?)
    && (forall id :: id in w.requests && w.requests[id].phase.Completing? ==>
          && w.lock == Some(id)
          && Mine(w.row, w.requests[id].phase.token)
          && w.row.value.createdAt < w.requests[id].phase.until)
  }

  ghost predicate RetentionPositive(w: World) {
    forall id :: id in w.requests ==> w.requests[id].ask.retention > 0
  }

  predicate IsCommitOf(c: Commit, epoch: nat, r: Row) {
    c.epoch == epoch && r.answer == Some(c.answer) && SameQuestion(r, c.ask)
  }

  /** The stored answer is the last commit's, of this epoch; a pending or missing row has none in it. */
  ghost predicate LogMatchesRow(w: World) {
    if w.row.Some? && !IsPending(w.row.value)
    then w.commits != [] && IsCommitOf(w.commits[|w.commits| - 1], w.epoch, w.row.value)
    else forall k :: 0 <= k < |w.commits| ==> w.commits[k].epoch < w.epoch
  }

  ghost predicate EpochsIncrease(w: World) {
    && (forall j, k :: 0 <= j < k < |w.commits| ==> w.commits[j].epoch < w.commits[k].epoch)
    && (forall k :: 0 <= k < |w.commits| ==> w.commits[k].epoch <= w.epoch)
  }

  ghost predicate Backed(commits: seq<Commit>, s: Served) {
    exists k :: 0 <= k < |commits| && commits[k].epoch == s.epoch && commits[k].answer == s.answer
      && commits[k].ask.endpoint == s.ask.endpoint && commits[k].ask.fingerprint == s.ask.fingerprint
  }

  ghost predicate ServedBacked(w: World) {
    forall j :: 0 <= j < |w.served| ==> Backed(w.commits, w.served[j])
  }

  ghost predicate ProtocolInv(w: World) {
    && RowSound(w)
    && TokensPast(w)
    && HeldAreOwned(w)
    && RowIsOwned(w)
    && LockSound(w)
    && RetentionPositive(w)
    && LogMatchesRow(w)
    && EpochsIncrease(w)
    && ServedBacked(w)
    && (forall id :: id in w.requests ==> ClockRead(w, w.requests[id].phase))
  }

  // Each step keeps it ----------------------------------------------------------------

  /** Moving a request to a phase that holds no new token, all else the same. */
  lemma PhaseKeeps(w: World, id: nat, phase: Phase)
    requires ProtocolInv(w) && id in w.requests
    requires Held(phase).Some? ==> Held(phase) == Held(w.requests[id].phase)
    requires !phase.Completing? && ClockRead(w, phase)
    requires !w.requests[id].phase.Completing?
    ensures ProtocolInv(Put(w, id, phase))
  {
  }

  /** A token given now was never given before. */
  lemma FreshToken(w: World, row: Row)
    requires TokensPast(w)
    requires row.pk == w.nextPk || (w.row.Some? && row.pk == w.row.value.pk && w.row.value.createdAt < row.createdAt)
    ensures Token(row.pk, row.createdAt) !in w.owners
  {
  }

  /** Giving the row to a request: its token is new, and every older one is fenced off. */
  lemma GiveKeeps(w: World, id: nat, row: Row, nextPk: nat, epoch: nat)
    requires ProtocolInv(w) && id in w.requests && w.lock.None?
    requires Held(w.requests[id].phase).None?
    requires IsPending(row) && SameQuestion(row, w.requests[id].ask)
    requires row.createdAt < row.expiresAt && row.createdAt <= w.now
    requires if row.pk == w.nextPk then nextPk == w.nextPk + 1
             else nextPk == w.nextPk && w.row.Some? && row.pk == w.row.value.pk && w.row.value.createdAt < row.createdAt
    requires epoch == w.epoch + 1 || (epoch == w.epoch && (w.row.None? || IsPending(w.row.value)))
    ensures ProtocolInv(Give(w, id, row).(nextPk := nextPk, epoch := epoch))
  {
    FreshToken(w, row);
    var c := Give(w, id, row).(nextPk := nextPk, epoch := epoch);
    assert HeldAreOwned(c) by {
      forall other | other in c.requests && Held(c.requests[other].phase).Some?
        ensures Held(c.requests[other].phase).value in c.owners &&
                c.owners[Held(c.requests[other].phase).value] == other
      {
        if other != id {
          assert Held(w.requests[other].phase).value in w.owners;
        }
      }
    }
  }

  lemma InsertKeeps(w: World, id: nat)
    requires ProtocolInv(w) && NextInsert(w, id).Some?
    ensures ProtocolInv(NextInsert(w, id).value)
  {
    var Inserting(attempt, now) := w.requests[id].phase;
    if w.row.Some? {
      PhaseKeeps(w, id, Reading(attempt, now));
    } else {
      assert w.lock.None?;
      var ask := w.requests[id].ask;
      GiveKeeps(w, id, Inserted(w.nextPk, ask, now, w.now), w.nextPk + 1, w.epoch);
    }
  }

  lemma ReadKeeps(w: World, id: nat)
    requires ProtocolInv(w) && NextRead(w, id).Some?
    ensures ProtocolInv(NextRead(w, id).value)
  {
    var Reading(attempt, now) := w.requests[id].phase;
    match Judge(w.row, w.requests[id].ask, now)
    case InsertAgain =>
      PhaseKeeps(w, id, if attempt == 0 then Inserting(1, w.now) else TurnedAway);
    case Reused => PhaseKeeps(w, id, TurnedAway);
    case InFlight => PhaseKeeps(w, id, TurnedAway);
    case Replay(answer) =>
      PhaseKeeps(w, id, Replayed(answer));
      var s := Served(w.epoch, id, w.requests[id].ask, answer);
      var last := |w.commits| - 1;
      assert IsCommitOf(w.commits[last], w.epoch, w.row.value);
      assert Backed(w.commits, s);
    case TakeExpired => PhaseKeeps(w, id, Turning(attempt, now, w.row.value.pk, true));
    case TakeAbandoned => PhaseKeeps(w, id, Turning(attempt, now, w.row.value.pk, false));
  }

  lemma TurnKeeps(w: World, id: nat, now: Time, expired: bool)
    requires ProtocolInv(w) && id in w.requests && w.lock.None? && now <= w.now
    requires Held(w.requests[id].phase).None?
    requires w.row.Some? && Candidate(w.row, w.row.value.pk, expired, now)
    ensures ProtocolInv(Give(w, id, KeyStatements.TakenOver(w.row.value, w.requests[id].ask, now)).(
                          epoch := if expired then w.epoch + 1 else w.epoch))
  {
    var row := KeyStatements.TakenOver(w.row.value, w.requests[id].ask, now);
    var epoch := if expired then w.epoch + 1 else w.epoch;
    GiveKeeps(w, id, row, w.nextPk, epoch);
    assert Give(w, id, row).(nextPk := w.nextPk, epoch := epoch) == Give(w, id, row).(epoch := epoch);
  }

  lemma TakeOverKeeps(w: World, id: nat)
    requires ProtocolInv(w) && NextTakeOver(w, id).Some?
    ensures ProtocolInv(NextTakeOver(w, id).value)
  {
    var Turning(attempt, now, pk, expired) := w.requests[id].phase;
    assert ClockRead(w, w.requests[id].phase);
    hide ProtocolInv;
    if Candidate(w.row, pk, expired, now) {
      TurnKeeps(w, id, now, expired);
    } else {
      PhaseKeeps(w, id, if attempt + 1 < RESERVE_ATTEMPTS then Inserting(attempt + 1, w.now) else TurnedAway);
    }
  }

  lemma StoreKeeps(w: World, id: nat, answer: Answer)
    requires ProtocolInv(w) && NextStore(w, id, answer).Some?
    ensures ProtocolInv(NextStore(w, id, answer).value)
  {
    var t := w.requests[id].phase.token;
    if !Mine(w.row, t) {
      PhaseKeeps(w, id, TurnedAway);
    }
  }

  lemma CommitKeeps(w: World, id: nat)
    requires ProtocolInv(w) && NextCommit(w, id).Some?
    ensures ProtocolInv(NextCommit(w, id).value)
  {
    var c := NextCommit(w, id).value;
    var t := w.requests[id].phase.token;
    assert w.owners[t] == id;
    assert IsCommitOf(c.commits[|c.commits| - 1], c.epoch, c.row.value);
    forall j | 0 <= j < |c.served|
      ensures Backed(c.commits, c.served[j])
    {
      assert Backed(w.commits, w.served[j]);
      var k :| 0 <= k < |w.commits| && w.commits[k].epoch == w.served[j].epoch && w.commits[k].answer == w.served[j].answer
        && w.commits[k].ask.endpoint == w.served[j].ask.endpoint
            && w.commits[k].ask.fingerprint == w.served[j].ask.fingerprint;
      assert c.commits[k] == w.commits[k];
    }
  }

  lemma ReleaseKeeps(w: World, id: nat)
    requires ProtocolInv(w) && Next(w, Release(id)).Some?
    ensures ProtocolInv(Next(w, Release(id)).value)
  {
    PhaseKeeps(w, id, TurnedAway);
  }

  lemma UnlockKeeps(w: World, id: nat, phase: Phase)
    requires ProtocolInv(w) && id in w.requests && w.requests[id].phase.Completing?
    requires phase == Crashed || phase == Releasing(w.requests[id].phase.token)
    ensures ProtocolInv(Put(w, id, phase).(lock := None))
  {
  }

  lemma TickKeeps(w: World, elapsed: nat)
    requires ProtocolInv(w)
    ensures ProtocolInv(w.(now := w.now + elapsed))
  {
  }

  lemma ArriveKeeps(w: World, id: nat, ask: Ask)
    requires ProtocolInv(w) && id !in w.requests && ask.retention > 0
    ensures ProtocolInv(w.(requests := w.requests[id := Request(ask, Fresh)]))
  {
  }

  lemma PurgeKeeps(w: World)
    requires ProtocolInv(w) && w.lock.None?
    ensures ProtocolInv(w.(row := None, epoch := w.epoch + 1))
  {
  }

  lemma CrashKeeps(w: World, id: nat)
    requires ProtocolInv(w) && Next(w, Crash(id)).Some?
    ensures ProtocolInv(Next(w, Crash(id)).value)
  {
    if w.requests[id].phase.Completing? {
      UnlockKeeps(w, id, Crashed);
    } else {
      PhaseKeeps(w, id, Crashed);
    }
  }

  lemma OwnStepKeeps(w: World, s: Step)
    requires ProtocolInv(w) && Next(w, s).Some?
    requires s.Begin? || s.Fail? || s.AbortWork? || s.ReleaseFails?
    ensures ProtocolInv(Next(w, s).value)
  {
    match s
    case Begin(id) => PhaseKeeps(w, id, Inserting(0, w.now));
    case Fail(id) => PhaseKeeps(w, id, Releasing(w.requests[id].phase.token));
    case AbortWork(id) => UnlockKeeps(w, id, Releasing(w.requests[id].phase.token));
    case ReleaseFails(id) => PhaseKeeps(w, id, TurnedAway);
  }

  lemma StepKeeps(w: World, s: Step)
    requires ProtocolInv(w) && Next(w, s).Some?
    ensures ProtocolInv(Next(w, s).value)
  {
    hide ProtocolInv;
    if s.Tick? {
      TickKeeps(w, s.elapsed);
    } else if s.Arrive? {
      ArriveKeeps(w, s.id, s.ask);
    } else if s.Purge? {
      PurgeKeeps(w);
    } else if s.Begin? || s.Fail? || s.AbortWork? || s.ReleaseFails? {
      OwnStepKeeps(w, s);
    } else {
      match s
      case Insert(id) => InsertKeeps(w, id);
      case Read(id) => ReadKeeps(w, id);
      case TakeOver(id) => TakeOverKeeps(w, id);
      case Store(id, answer) => StoreKeeps(w, id, answer);
      case CommitWork(id) => CommitKeeps(w, id);
      case Release(id) => ReleaseKeeps(w, id);
      case Crash(id) => CrashKeeps(w, id);
    }
  }

  lemma {:induction false} ReachableKeeps(w: World, start: World, steps: seq<Step>)
    requires ProtocolInv(start) && Reachable(w, start, steps)
    ensures ProtocolInv(w)
    decreases |steps|
  {
    if steps != [] {
      StepKeeps(start, steps[0]);
      ReachableKeeps(w, Next(start, steps[0]).value, steps[1..]);
    }
  }

  // What it guarantees ------------------------------------------------------------------

  /**
   * Never done twice: in every interleaving, between two expiries of the key's row at
   * most one handler's effects stand.
   */
  lemma AtMostOnce(w: World, now: Time, steps: seq<Step>, j: nat, k: nat)
    requires Reachable(w, Start(now), steps)
    requires j < |w.commits| && k < |w.commits| && w.commits[j].epoch == w.commits[k].epoch
    ensures j == k
  {
    ReachableKeeps(w, Start(now), steps);
  }

  /**
   * Every replay gives exactly the answer of the one commit of its epoch, and only to
   * a request for the same endpoint with the same body.
   */
  lemma ReplaysTheCommit(w: World, now: Time, steps: seq<Step>, j: nat)
    requires Reachable(w, Start(now), steps) && j < |w.served|
    ensures exists k :: 0 <= k < |w.commits| && w.commits[k].epoch == w.served[j].epoch
    ensures forall k :: 0 <= k < |w.commits| && w.commits[k].epoch == w.served[j].epoch ==>
              && w.commits[k].answer == w.served[j].answer
              && w.commits[k].ask.endpoint == w.served[j].ask.endpoint
              && w.commits[k].ask.fingerprint == w.served[j].ask.fingerprint
  {
    ReachableKeeps(w, Start(now), steps);
    assert Backed(w.commits, w.served[j]);
  }

  lemma StepKeepsOwners(w: World, s: Step, t: Token)
    requires ProtocolInv(w) && Next(w, s).Some? && t in w.owners
    ensures t in Next(w, s).value.owners && Next(w, s).value.owners[t] == w.owners[t]
  {
    match s
    case Insert(id) =>
      if w.row.None? {
        FreshToken(w, Inserted(w.nextPk, w.requests[id].ask, w.requests[id].phase.now, w.now));
      }
    case TakeOver(id) =>
      var Turning(_, now, pk, expired) := w.requests[id].phase;
      assert ClockRead(w, w.requests[id].phase);
      if Candidate(w.row, pk, expired, now) {
        FreshToken(w, KeyStatements.TakenOver(w.row.value, w.requests[id].ask, now));
      }
    case _ =>
  }

  lemma {:induction false} OwnersStay(w: World, mid: World, more: seq<Step>, t: Token)
    requires ProtocolInv(mid) && Reachable(w, mid, more) && t in mid.owners
    ensures t in w.owners && w.owners[t] == mid.owners[t]
    decreases |more|
  {
    if more != [] {
      StepKeeps(mid, more[0]);
      StepKeepsOwners(mid, more[0], t);
      OwnersStay(w, Next(mid, more[0]).value, more[1..], t);
    }
  }

  /**
   * A token names one owner ever: whatever happens after it was given, to whomever, it
   * is never given to another request, and no other request holds it.
   */
  lemma TokensAreUnique(mid: World, w: World, now: Time, steps: seq<Step>, more: seq<Step>, t: Token, holder: nat)
    requires Reachable(mid, Start(now), steps) && Reachable(w, mid, more) && t in mid.owners
    ensures t in w.owners && w.owners[t] == mid.owners[t]
    ensures holder in w.requests && Held(w.requests[holder].phase) == Some(t) ==> holder == mid.owners[t]
  {
    ReachableKeeps(mid, Start(now), steps);
    OwnersStay(w, mid, more, t);
    ReachableKeeps(w, mid, more);
  }

  /** The clock a request that turns the row read before it. */
  predicate TurnsAt(w: World, s: Step, clock: Time) {
    s.TakeOver? && s.id in w.requests && w.requests[s.id].phase.Turning? && w.requests[s.id].phase.now == clock
  }

  /**
   * A request keeps its row for a minute. If a step ends its reservation, then it was the
   * request's own release or commit; or a purge of a row that had expired; or another
   * request took the row over, by a clock past its expiry or more than 60 seconds past
   * its taking.
   */
  lemma KeepsItsRowAMinute(w: World, now: Time, steps: seq<Step>, s: Step, holder: nat, t: Token)
    requires Reachable(w, Start(now), steps) && Next(w, s).Some?
    requires holder in w.requests && Held(w.requests[holder].phase) == Some(t) && Mine(w.row, t)
    requires !Mine(Next(w, s).value.row, t)
    ensures
      || s == Release(holder)
      || s == CommitWork(holder)
      || (s == Purge && w.row.value.expiresAt <= w.now)
      || (exists clock :: TurnsAt(w, s, clock) && clock <= w.now
                          && (w.row.value.expiresAt <= clock || clock - w.row.value.createdAt > 60))
  {
    hide ProtocolInv, Reachable;
    ReachableKeeps(w, Start(now), steps);
    OneHolder(w, holder, t);
    if s.TakeOver? {
      TurnerReadEarlier(w, s.id);
      assert TurnsAt(w, s, w.requests[s.id].phase.now);
    }
  }

  lemma OneHolder(w: World, holder: nat, t: Token)
    requires ProtocolInv(w)
    requires holder in w.requests && Held(w.requests[holder].phase) == Some(t) && Mine(w.row, t)
    ensures forall id :: id in w.requests && id != holder ==> Held(w.requests[id].phase) != Some(t)
    ensures forall id :: id in w.requests && w.requests[id].phase.Completing? ==> id == holder
  {
  }

  lemma TurnerReadEarlier(w: World, id: nat)
    requires ProtocolInv(w)
    ensures id in w.requests && w.requests[id].phase.Turning? ==> w.requests[id].phase.now <= w.now
  {
    if id in w.requests {
      assert ClockRead(w, w.requests[id].phase);
    }
  }

  /** The row is not this request's any more: gone, answered, or given to another. */
  predicate Superseded(w: World, slow: nat) {
    || w.row.None?
    || !IsPending(w.row.value)
    || var t := Token(w.row.value.pk, w.row.value.createdAt);
       t in w.owners && w.owners[t] != slow
  }

  /**
   * Fencing: once the row is gone, or answered, or given to another request, which may
   * have stored its own answer since, a slow original can neither store its answer, nor
   * commit, nor change or delete the row.
   */
  lemma SupersededIsFenced(w: World, now: Time, steps: seq<Step>, slow: nat, answer: Answer)
    requires Reachable(w, Start(now), steps)
    requires slow in w.requests && Held(w.requests[slow].phase).Some? && Superseded(w, slow)
    ensures Next(w, CommitWork(slow)).None?
    ensures Next(w, Store(slow, answer)).Some? ==>
              Next(w, Store(slow, answer)).value == Put(w, slow, TurnedAway)
    ensures Next(w, Release(slow)).Some? ==> Next(w, Release(slow)).value.row == w.row
  {
    ReachableKeeps(w, Start(now), steps);
    assert !Mine(w.row, Held(w.requests[slow].phase).value);
  }

  /** Work that stands always has its stored answer: a commit and its answer are one step. */
  lemma CommittedIsStored(w: World, s: Step)
    requires ProtocolInv(w) && Next(w, s).Some?
    requires |Next(w, s).value.commits| > |w.commits|
    ensures s.CommitWork? && |Next(w, s).value.commits| == |w.commits| + 1
    ensures var c := Next(w, s).value;
            c.row.Some? && c.row.value.answer == Some(c.commits[|w.commits|].answer) &&
            SameQuestion(c.row.value, c.commits[|w.commits|].ask) &&
            c.requests[s.id].phase == Answered(w.requests[s.id].phase.token, c.commits[|w.commits|].answer)
  {
    CommitKeeps(w, s.id);
  }
}

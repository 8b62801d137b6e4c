/**
 * The database statements behind a replay-protected request, on the row of one key
 * (core/idempotency.py). Each is atomic; what happens between them is in
 * IdempotencyProtocol.
 */
module KeyStatements {
  import opened Results

  type Time = int
  /** A stored response: status and body, as one opaque value. */
  type Answer = nat

  const PENDING_TIMEOUT: int := 60
  const RESERVE_ATTEMPTS: nat := 3

  /** No answer yet while the reservation's handler works. */
  datatype Row = Row(pk: nat, createdAt: Time, expiresAt: Time, endpoint: nat, fingerprint: nat, answer: Option<Answer>)

  /** The fencing token: which row, and when this request took it. */
  datatype Token = Token(pk: nat, at: Time)

  datatype Ask = Ask(endpoint: nat, fingerprint: nat, retention: int)

  predicate IsPending(r: Row) {
    r.answer.None?
  }

  /** The row is this reservation's, still pending. */
  predicate Mine(row: Option<Row>, t: Token) {
    row.Some? && row.value.pk == t.pk && row.value.createdAt == t.at && IsPending(row.value)
  }

  predicate SameQuestion(r: Row, ask: Ask) {
    r.endpoint == ask.endpoint && r.fingerprint == ask.fingerprint
  }

  /** Which row a take-over may turn, by what the request read. */
  predicate Candidate(row: Option<Row>, pk: nat, expired: bool, now: Time) {
    && row.Some? && row.value.pk == pk
    && (if expired then row.value.expiresAt <= now
        else IsPending(row.value) && row.value.createdAt < now - PENDING_TIMEOUT)
  }

  function Inserted(pk: nat, ask: Ask, now: Time, savedAt: Time): Row {
    Row(pk, savedAt, now + ask.retention, ask.endpoint, ask.fingerprint, None)
  }

  function TakenOver(r: Row, ask: Ask, now: Time): Row {
    Row(r.pk, now, now + ask.retention, ask.endpoint, ask.fingerprint, None)
  }

  function Completed(r: Row, answer: Answer, until: Time): Row {
    r.(answer := Some(answer), expiresAt := until)
  }

  /** What is left once this reservation gives the row up. */
  function Released(row: Option<Row>, t: Token): Option<Row> {
    if Mine(row, t) then None else row
  }

  /** What is left once the expired row is deleted. */
  function Purged(row: Option<Row>, now: Time): Option<Row> {
    if row.Some? && row.value.expiresAt <= now then None else row
  }

  /** What a request does about the row it found. */
  datatype Verdict = InsertAgain | TakeExpired | Reused | Replay(answer: Answer) | InFlight | TakeAbandoned

  function Judge(row: Option<Row>, ask: Ask, now: Time): Verdict {
    if row.None? then InsertAgain
    else if row.value.expiresAt <= now then TakeExpired
    else if !SameQuestion(row.value, ask) then Reused
    else if !IsPending(row.value) then Replay(row.value.answer.value)
    else if row.value.createdAt > now - PENDING_TIMEOUT then InFlight
    else TakeAbandoned
  }

  datatype Reserved =
    | Owned(token: Token)
    | Stored(answer: Answer)
    | KeyReused
    | StillInFlight
    | InsertFailed

  /** What comes of a reservation nobody else interferes with, by the row's own fields: a missing or expired row is taken;
      another question's is refused; an answered one is replayed; a pending one is in flight under a minute, and taken
      over past one. */
  predicate Undisturbed(row: Option<Row>, ask: Ask, now: Time, outcome: Reserved) {
    if row.None? || row.value.expiresAt <= now then outcome.Owned?
    else if row.value.endpoint != ask.endpoint || row.value.fingerprint != ask.fingerprint then outcome == KeyReused
    else if row.value.answer.Some? then outcome == Stored(row.value.answer.value)
    else if now - row.value.createdAt < 60 then outcome == StillInFlight
    else now - row.value.createdAt > 60 ==> outcome.Owned?
  }

  /** What the handler did: a success to store, or a failure that rolls back. */
  datatype Work = Succeeds(answer: Answer) | Fails

  datatype Outcome =
    | Succeeded(answer: Answer)
    | Repeated(answer: Answer)
    | WorkFailed
    | Refused409
    | NotInserted

  /** The table, as far as one key is concerned. */
  class KeyTable {
    var row: Option<Row>
    var nextPk: nat

    constructor ()
      ensures row.None? && nextPk == 0
    {
      row, nextPk := None, 0;
    }

    /** Insert a pending row; the unique key lets only one in. */
    method InsertPending(ask: Ask, now: Time, savedAt: Time) returns (token: Option<Token>)
      modifies this
      ensures old(row).Some? ==> token.None? && row == old(row) && nextPk == old(nextPk)
      ensures old(row).None? ==> token == Some(Token(old(nextPk), savedAt)) && nextPk == old(nextPk) + 1
      ensures old(row).None? ==> row == Some(Inserted(old(nextPk), ask, now, savedAt)) && Mine(row, token.value)
    {
      if row.Some? { return None; }
      row := Some(Inserted(nextPk, ask, now, savedAt));
      token := Some(Token(nextPk, savedAt));
      nextPk := nextPk + 1;
    }

    /** A conditional update: of two requests taking over one row, one matches. */
    method TakeOver(pk: nat, expired: bool, ask: Ask, now: Time) returns (token: Option<Token>)
      modifies this`row
      ensures token.Some? <==>
                && old(row).Some? && old(row).value.pk == pk
                && (if expired then old(row).value.expiresAt <= now
                    else old(row).value.answer.None? && now - old(row).value.createdAt > 60)
      ensures token.Some? ==> token.value == Token(pk, now) && Mine(row, token.value)
      ensures token.Some? ==> row == Some(TakenOver(old(row).value, ask, now))
      ensures token.None? ==> row == old(row)
      ensures token.Some? ==> !Candidate(row, pk, false, now)
      ensures token.Some? && ask.retention > 0 ==> !Candidate(row, pk, true, now)
    {
      if !Candidate(row, pk, expired, now) { return None; }
      row := Some(TakenOver(row.value, ask, now));
      token := Some(Token(pk, now));
    }

    /**
     * Give the reservation up: the key is free for the next request if it was still
     * this one's, and otherwise nobody else's reservation or answer is lost.
     */
    method Release(token: Token)
      modifies this`row
      ensures row == Released(old(row), token) && !Mine(row, token)
      ensures Mine(old(row), token) ==> forall ask, at :: Judge(row, ask, at) == InsertAgain
      ensures forall t: Token :: t != token && Mine(old(row), t) ==> row == old(row)
      ensures old(row).Some? && !IsPending(old(row).value) ==> row == old(row)
    {
      if Mine(row, token) { row := None; }
    }

    /**
     * Store the answer: from then until it expires every request that asks the same is
     * answered with it, any other is refused, and no reservation can touch the row.
     */
    method Complete(token: Token, answer: Answer, until: Time) returns (stored: bool)
      modifies this`row
      ensures stored <==> Mine(old(row), token)
      ensures stored ==> row == Some(Completed(old(row).value, answer, until))
      ensures stored ==> forall ask, at :: at < until ==>
                Judge(row, ask, at) == if SameQuestion(old(row).value, ask) then Replay(answer) else Reused
      ensures stored ==> forall t: Token :: !Mine(row, t) && Released(row, t) == row
      ensures !stored ==> row == old(row)
    {
      stored := Mine(row, token);
      if stored { row := Some(Completed(row.value, answer, until)); }
    }

    /** Delete the row exactly when any request coming now would take it over as expired. */
    method Purge(now: Time) returns (deleted: nat)
      modifies this`row
      ensures row == Purged(old(row), now) && deleted <= 1
      ensures deleted == 1 <==> forall ask :: Judge(old(row), ask, now) == TakeExpired
      ensures forall ask :: Judge(row, ask, now) != TakeExpired
      ensures deleted == 0 ==> row == old(row)
    {
      deleted := 0;
      if row.Some? && row.value.expiresAt <= now { row, deleted := None, 1; }
      ghost var anyone := Ask(0, 0, 0);
      assert deleted == 0 ==> Judge(old(row), anyone, now) != TakeExpired;
    }

    /** What other requests leave in the row before this one's next statement. */
    method Interfere(others: seq<Option<Row>>, k: nat) returns (next: nat)
      modifies this`row
      ensures row == if k < |others| then others[k] else old(row)
      ensures next == k + 1
    {
      if k < |others| { row := others[k]; }
      next := k + 1;
    }

    /**
     * Reserve the key for this request, or answer it without running its work. Other
     * requests may change the row before each statement, in any way at all. Each
     * attempt reads the clock, and its insert is saved at a moment of its own.
     */
    method Reserve(ask: Ask, clock: seq<Time>, saved: seq<Time>, others: seq<Option<Row>>)
      returns (outcome: Reserved, lost: nat)
      requires |clock| == 3 == |saved|
      modifies this
      ensures outcome.Owned? ==> Mine(row, outcome.token) && SameQuestion(row.value, ask)
      ensures outcome.Owned? ==> exists i :: 0 <= i < |clock| && row.value.expiresAt == clock[i] + ask.retention
      ensures outcome.Stored? ==> exists i :: 0 <= i < |clock| && Judge(row, ask, clock[i]) == Replay(outcome.answer)
      ensures outcome.KeyReused? ==> exists i :: 0 <= i < |clock| && Judge(row, ask, clock[i]) == Reused
      ensures outcome.InsertFailed? ==> row.None?
      ensures outcome.StillInFlight? ==>
                (exists i :: 0 <= i < |clock| && Judge(row, ask, clock[i]) == InFlight) || lost >= 2
      ensures others == [] ==> Undisturbed(old(row), ask, clock[0], outcome)
      ensures others == [] && !outcome.Owned? ==> row == old(row)
    {
      var k := 0;
      lost := 0;
      for attempt := 0 to RESERVE_ATTEMPTS
        invariant lost == attempt || lost == attempt - 1
        invariant others == [] ==> row == old(row)
        invariant others == [] && attempt > 0 ==>
                    Judge(row, ask, clock[0]) == TakeAbandoned && row.value.createdAt == clock[0] - PENDING_TIMEOUT
      {
        var now := clock[attempt];
        k := Interfere(others, k);
        var inserted := InsertPending(ask, now, saved[attempt]);
        if inserted.Some? {
          return Owned(inserted.value), lost;
        }
        k := Interfere(others, k);
        var existing := row;
        match Judge(existing, ask, now) {
          case InsertAgain =>
            if attempt != 0 {
              return InsertFailed, lost;
            }
          case Reused => return KeyReused, lost;
          case Replay(answer) => return Stored(answer), lost;
          case InFlight => return StillInFlight, lost;
          case TakeExpired =>
            k := Interfere(others, k);
            var taken := TakeOver(existing.value.pk, true, ask, now);
            if taken.Some? {
              return Owned(taken.value), lost;
            }
            lost := lost + 1;
          case TakeAbandoned =>
            k := Interfere(others, k);
            var taken := TakeOver(existing.value.pk, false, ask, now);
            if taken.Some? {
              return Owned(taken.value), lost;
            }
            lost := lost + 1;
        }
      }
      outcome := StillInFlight;
    }

    /**
     * A request from its reservation to its answer. Its work commits only with its
     * answer, in the row that is still its own; failing, it gives the key up; and if
     * another request holds the key by then, its work is rolled back and the key left.
     */
    method Protect(
        ask: Ask, clock: seq<Time>, saved: seq<Time>, others: seq<Option<Row>>, later: seq<Option<Row>>,
        work: Work, doneAt: Time) returns (outcome: Outcome, held: Option<Token>)
      requires |clock| == 3 == |saved|
      modifies this
      ensures held.None? ==> outcome.Refused409? || outcome.Repeated? || outcome.NotInserted?
      ensures outcome.Succeeded? ==> work == Succeeds(outcome.answer) && held.Some? && !Mine(row, held.value)
      ensures outcome.Succeeded? ==> row.Some? && (later == [] ==> SameQuestion(row.value, ask))
      ensures outcome.Succeeded? ==> forall again, at :: SameQuestion(row.value, again) && at < doneAt + ask.retention ==>
                Judge(row, again, at) == Replay(outcome.answer)
      ensures outcome.WorkFailed? ==> !work.Succeeds? && held.Some? && !Mine(row, held.value)
      ensures outcome.Refused409? && held.Some? ==> later != [] && row == later[0] && !Mine(row, held.value)
      ensures later == [] && held.Some? ==> if work.Succeeds? then outcome.Succeeded? else outcome.WorkFailed? && row.None?
    {
      var reserved, _ := Reserve(ask, clock, saved, others);
      match reserved {
        case Stored(answer) => return Repeated(answer), None;
        case KeyReused => return Refused409, None;
        case StillInFlight => return Refused409, None;
        case InsertFailed => return NotInserted, None;
        case Owned(token) =>
          var _ := Interfere(later, 0);
          if work.Succeeds? {
            var stored := Complete(token, work.answer, doneAt + ask.retention);
            if stored {
              return Succeeded(work.answer), Some(token);
            }
            return Refused409, Some(token);
          }
          Release(token);
          return WorkFailed, Some(token);
      }
    }
  }
}

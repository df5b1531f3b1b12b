/**
 * Sign-in codes by e-mail: the challenge table of app/storage.py and the request and verify handlers of app/api.py.
 * Handlers run in several threads and only the writes take the lock, so a request is a series of steps with anything
 * in between. Times are integers in the clock's own unit; addresses are in normal form; a code stands for its digest.
 */
module EmailCodes {
  import opened Common

  type ChallengeId = nat

  /**
   * `slack` bounds the time between a request's first clock reading and the last one it takes for its challenge;
   * `horizon` is how long cleanup leaves expired challenges alone.
   */
  datatype Limits = Limits(
    ttl: int, cooldown: int, window: int, ipMax: int, maxAttempts: int, slack: int, horizon: int)

  datatype Challenge = Challenge(
    email: nat, ip: nat, code: nat, attempts: int, maxAttempts: int,
    expiresAt: int, createdAt: int, consumedAt: Option<int>)

  /** When, for whom and from where a challenge was created. */
  datatype Stamp = Stamp(email: nat, ip: nat, createdAt: int)

  /** How far a request has come: its window and its cooldown have been checked, or it waits for the lock to insert. */
  datatype Progress = Begun | Counted | Looked | Stamped(code: nat, at: int)

  /** The local variables of a request handler; `now` is its first clock reading. */
  datatype Flight = Flight(email: nat, ip: nat, now: int, progress: Progress)

  /**
   * `used`, `sent` and `wins` are history values: all identifiers ever drawn, the challenges whose mail did not fail
   * (whether or not cleanup has removed their rows), and the successful verifications of each challenge.
   */
  datatype Desk = Desk(
    clock: int,
    rows: map<ChallengeId, Challenge>,
    flights: map<ChallengeId, Flight>,
    used: set<ChallengeId>,
    sent: map<ChallengeId, Stamp>,
    wins: map<ChallengeId, nat>)

  function StampOf(c: Challenge): Stamp {
    Stamp(c.email, c.ip, c.createdAt)
  }

  function Stamps(rows: map<ChallengeId, Challenge>): map<ChallengeId, Stamp> {
    map i | i in rows :: StampOf(rows[i])
  }

  /** The challenges of one address created after `since`. */
  function Recent(stamps: map<ChallengeId, Stamp>, ip: nat, since: int): set<ChallengeId> {
    set i | i in stamps && stamps[i].ip == ip && stamps[i].createdAt > since
  }

  // ---------------------------------------------------------------- the handlers on tables

  /** count_email_challenges_since leaves the address room in the window that ends now. */
  predicate HasRoom(rows: map<ChallengeId, Challenge>, ip: nat, now: int, l: Limits) {
    |Recent(Stamps(rows), ip, now - l.window)| < l.ipMax
  }

  /** latest_email_challenge_at: the last code for this e-mail is old enough. */
  predicate HasCooled(rows: map<ChallengeId, Challenge>, email: nat, now: int, l: Limits) {
    forall i | i in rows && rows[i].email == email :: now - rows[i].createdAt >= l.cooldown
  }

  function Consumed(c: Challenge, email: nat, at: int): Challenge {
    if c.email == email && c.consumedAt.None? then c.(consumedAt := Some(at)) else c
  }

  /** create_email_challenge: earlier codes of the e-mail are used up first. */
  function Created(d: Desk, id: ChallengeId, f: Flight, code: nat, at: int, l: Limits): Desk {
    var c := Challenge(f.email, f.ip, code, 0, l.maxAttempts, f.now + l.ttl, at, None);
    d.(rows := (map i | i in d.rows :: Consumed(d.rows[i], f.email, at))[id := c],
       sent := d.sent[id := StampOf(c)])
  }

  predicate Open(c: Challenge, email: nat, now: int) {
    c.email == email && c.consumedAt.None? && c.expiresAt > now && c.attempts < c.maxAttempts
  }

  /** consume_email_challenge succeeds. */
  predicate Succeeds(d: Desk, id: ChallengeId, email: nat, code: nat, now: int) {
    id in d.rows && Open(d.rows[id], email, now) && d.rows[id].code == code
  }

  /** The row of a challenge nobody had used is marked as used. */
  predicate Accepted(before: Desk, after: Desk, id: ChallengeId) {
    && id in before.rows && before.rows[id].consumedAt.None?
    && id in after.rows && after.rows[id].consumedAt.Some?
  }

  function WinsOf(d: Desk, id: ChallengeId): nat {
    if id in d.wins then d.wins[id] else 0
  }

  function Verified(d: Desk, id: ChallengeId, email: nat, code: nat, now: int): Desk {
    if Succeeds(d, id, email, code, now) then
      d.(rows := d.rows[id := d.rows[id].(consumedAt := Some(now))],
         wins := d.wins[id := WinsOf(d, id) + 1])
    else if id in d.rows && Open(d.rows[id], email, now) then
      d.(rows := d.rows[id := d.rows[id].(attempts := d.rows[id].attempts + 1)])
    else d
  }

  function Withdrawn(d: Desk, id: ChallengeId): Desk {
    d.(rows := d.rows - {id}, sent := d.sent - {id})
  }

  function Cleaned(d: Desk, cutoff: int): Desk {
    d.(rows := map i | i in d.rows && d.rows[i].expiresAt >= cutoff :: d.rows[i])
  }

  // ---------------------------------------------------------------- runs

  datatype DeskStep =
    | Pass(to: int)
    | Begin(id: ChallengeId, email: nat, ip: nat)
    | Count(id: ChallengeId)
    | Look(id: ChallengeId)
    | Draw(id: ChallengeId, code: nat, known: bool)
    | Create(id: ChallengeId)
    | Abandon(id: ChallengeId)
    | MailFails(id: ChallengeId)
    | Verify(id: ChallengeId, email: nat, code: nat, now: int)
    | Clean(cutoff: int)

  /** The request has come this far, and not too slowly. */
  predicate At(d: Desk, id: ChallengeId, progress: Progress, l: Limits) {
    id in d.flights && d.flights[id].progress == progress && d.clock <= d.flights[id].now + l.slack
  }

  predicate CanStep(d: Desk, step: DeskStep, l: Limits) {
    match step
    case Pass(to) => to >= d.clock
    case Begin(id, _, _) => id !in d.used
    case Count(id) => At(d, id, Begun, l)
    case Look(id) => At(d, id, Counted, l)
    case Draw(id, _, _) => At(d, id, Looked, l)
    case Create(id) => id in d.flights && d.flights[id].progress.Stamped?
    case Verify(_, _, _, now) => now <= d.clock
    case Clean(cutoff) => cutoff <= d.clock - l.horizon
    case _ => true
  }

  function Moved(d: Desk, id: ChallengeId, progress: Progress): Desk
    requires id in d.flights
  {
    d.(flights := d.flights[id := d.flights[id].(progress := progress)])
  }

  function Landed(d: Desk, id: ChallengeId): Desk {
    d.(flights := d.flights - {id})
  }

  /** A verification uses a clock reading from before it got the lock; a creation inserts the time it has drawn. */
  function DoStep(d: Desk, step: DeskStep, l: Limits): Desk
    requires CanStep(d, step, l)
  {
    match step
    case Pass(to) => d.(clock := to)
    case Begin(id, email, ip) =>
      d.(flights := d.flights[id := Flight(email, ip, d.clock, Begun)], used := d.used + {id})
    case Count(id) =>
      if HasRoom(d.rows, d.flights[id].ip, d.flights[id].now, l) then Moved(d, id, Counted) else Landed(d, id)
    case Look(id) =>
      if HasCooled(d.rows, d.flights[id].email, d.flights[id].now, l) then Moved(d, id, Looked) else Landed(d, id)
    case Draw(id, code, known) => if known then Moved(d, id, Stamped(code, d.clock)) else Landed(d, id)
    case Create(id) =>
      var f := d.flights[id];
      Landed(Created(d, id, f, f.progress.code, f.progress.at, l), id)
    case Abandon(id) => Landed(d, id)
    case MailFails(id) => Withdrawn(d, id)
    case Verify(id, email, code, now) => Verified(d, id, email, code, now)
    case Clean(cutoff) => Cleaned(d, cutoff)
  }

  predicate CanSteps(d: Desk, steps: seq<DeskStep>, l: Limits)
    decreases |steps|
  {
    steps == [] || (CanStep(d, steps[0], l) && CanSteps(DoStep(d, steps[0], l), steps[1..], l))
  }

  function DoSteps(d: Desk, steps: seq<DeskStep>, l: Limits): Desk
    requires CanSteps(d, steps, l)
    decreases |steps|
  {
    if steps == [] then d else DoSteps(DoStep(d, steps[0], l), steps[1..], l)
  }

  function Opened(clock: int): Desk {
    Desk(clock, map[], map[], {}, map[], map[])
  }

  // ---------------------------------------------------------------- the class

  lemma RecentRow(rows: map<ChallengeId, Challenge>, ip: nat, since: int, i: ChallengeId)
    requires i in rows
    ensures i in Recent(Stamps(rows), ip, since) <==> rows[i].ip == ip && rows[i].createdAt > since
  {
  }

  lemma RecentRows(rows: map<ChallengeId, Challenge>, ip: nat, since: int)
    ensures Recent(Stamps(rows), ip, since) == set i | i in rows && rows[i].ip == ip && rows[i].createdAt > since
  {
  }

  lemma RecentIsStored(rows: map<ChallengeId, Challenge>, ip: nat, since: int)
    ensures Recent(Stamps(rows), ip, since) <= rows.Keys
  {
  }

  lemma CountOne(all: set<ChallengeId>, todo: set<ChallengeId>, i: ChallengeId)
    requires i in todo
    ensures |all - (todo - {i})| == |all - todo| + if i in all then 1 else 0
  {
    if i in all {
      assert all - (todo - {i}) == all - todo + {i};
    } else {
      assert all - (todo - {i}) == all - todo;
    }
  }

  /** Without interference a request is one creation, or nothing but an identifier drawn. */
  function Undisturbed(d: Desk, id: ChallengeId, email: nat, ip: nat, code: nat, at: int, known: bool, l: Limits): Desk
  {
    var d1 := d.(used := d.used + {id});
    if known && HasRoom(d.rows, ip, d.clock, l) && HasCooled(d.rows, email, d.clock, l)
    then Created(d1.(clock := at), id, Flight(email, ip, d.clock, Looked), code, at, l)
    else d1
  }

  class EmailDesk {
    const l: Limits
    var rows: map<ChallengeId, Challenge>
    /** The local variables of the request handlers at work. */
    var flights: map<ChallengeId, Flight>
    ghost var used: set<ChallengeId>
    ghost var sent: map<ChallengeId, Stamp>
    ghost var wins: map<ChallengeId, nat>

    ghost function View(clock: int): Desk
      reads this
    {
      Desk(clock, rows, flights, used, sent, wins)
    }

    constructor (l: Limits)
      ensures this.l == l && forall clock :: View(clock) == Opened(clock)
    {
      this.l, rows, flights, used, sent, wins := l, map[], map[], {}, map[], map[];
    }

    /** count_email_challenges_since. */
    method CountSince(ip: nat, since: int) returns (count: nat)
      ensures count == |Recent(Stamps(rows), ip, since)|
    {
      ghost var recent := Recent(Stamps(rows), ip, since);
      RecentIsStored(rows, ip, since);
      var todo := rows.Keys;
      count := 0;
      assert recent - todo == {};
      while todo != {}
        invariant todo <= rows.Keys
        invariant count == |recent - todo|
        decreases todo
      {
        var i :| i in todo;
        RecentRow(rows, ip, since, i);
        CountOne(recent, todo, i);
        if rows[i].ip == ip && rows[i].createdAt > since {
          count := count + 1;
        }
        todo := todo - {i};
      }
      assert recent - todo == recent;
    }

    /** latest_email_challenge_at: the greatest creation time among the e-mail's challenges. */
    method LatestAt(email: nat) returns (latest: Option<int>)
      ensures latest.None? ==> forall i | i in rows :: rows[i].email != email
      ensures latest.Some? ==> exists i :: i in rows && rows[i].email == email && rows[i].createdAt == latest.value
      ensures latest.Some? ==> forall i | i in rows && rows[i].email == email :: rows[i].createdAt <= latest.value
    {
      var todo := rows.Keys;
      ghost var done: set<ChallengeId> := {};
      latest := None;
      while todo != {}
        invariant todo !! done && todo + done == rows.Keys
        invariant latest.None? ==> forall i | i in done :: rows[i].email != email
        invariant latest.Some? ==> exists i :: i in rows && rows[i].email == email && rows[i].createdAt == latest.value
        invariant latest.Some? ==> forall i | i in done && rows[i].email == email :: rows[i].createdAt <= latest.value
        decreases todo
      {
        var i :| i in todo;
        if rows[i].email == email && (latest.None? || rows[i].createdAt > latest.value) {
          latest := Some(rows[i].createdAt);
        }
        todo, done := todo - {i}, done + {i};
      }
    }

    method BeginRequest(id: ChallengeId, email: nat, ip: nat, now: int)
      requires id !in used
      modifies `flights, `used
      ensures View(now) == DoStep(old(View(now)), Begin(id, email, ip), l)
    {
      flights, used := flights[id := Flight(email, ip, now, Begun)], used + {id};
    }

    /** The window check of a request that began at its own `now`; the clock reads `clock` by this time. */
    method CountRequest(id: ChallengeId, ghost clock: int) returns (passed: bool)
      requires At(View(clock), id, Begun, l)
      modifies `flights
      ensures View(clock) == DoStep(old(View(clock)), Count(id), l)
      ensures passed <==> HasRoom(rows, old(flights)[id].ip, old(flights)[id].now, l)
      ensures var f := old(flights)[id];
              passed <==> |set i | i in rows && rows[i].ip == f.ip && rows[i].createdAt > f.now - l.window| < l.ipMax
    {
      var f := flights[id];
      var count := CountSince(f.ip, f.now - l.window);
      RecentRows(rows, f.ip, f.now - l.window);
      passed := count < l.ipMax;
      flights := if passed then flights[id := f.(progress := Counted)] else flights - {id};
    }

    /** The cooldown check. */
    method LookRequest(id: ChallengeId, ghost clock: int) returns (passed: bool)
      requires At(View(clock), id, Counted, l)
      modifies `flights
      ensures View(clock) == DoStep(old(View(clock)), Look(id), l)
      ensures passed <==> HasCooled(rows, old(flights)[id].email, old(flights)[id].now, l)
      ensures var f := old(flights)[id];
              passed <==> forall i | i in rows && rows[i].email == f.email :: f.now - rows[i].createdAt >= l.cooldown
    {
      var f := flights[id];
      var latest := LatestAt(f.email);
      passed := !(latest.Some? && l.cooldown - (f.now - latest.value) > 0);
      flights := if passed then flights[id := f.(progress := Looked)] else flights - {id};
    }

    /** The code is drawn, unless the e-mail may not sign in, and the creation time read. */
    method DrawCode(id: ChallengeId, code: nat, known: bool, at: int)
      requires At(View(at), id, Looked, l)
      modifies `flights
      ensures View(at) == DoStep(old(View(at)), Draw(id, code, known), l)
    {
      flights := if known then flights[id := flights[id].(progress := Stamped(code, at))] else flights - {id};
    }

    /** create_email_challenge, once it has the lock. */
    method CreateEmailChallenge(id: ChallengeId, ghost clock: int)
      requires id in flights && flights[id].progress.Stamped?
      modifies `rows, `flights, `sent
      ensures View(clock) == DoStep(old(View(clock)), Create(id), l)
    {
      var f := flights[id];
      var at := f.progress.at;
      rows := map i | i in rows ::
        if rows[i].email == f.email && rows[i].consumedAt.None? then rows[i].(consumedAt := Some(at)) else rows[i];
      rows := rows[id := Challenge(f.email, f.ip, f.progress.code, 0, l.maxAttempts, f.now + l.ttl, at, None)];
      flights, sent := flights - {id}, sent[id := Stamp(f.email, f.ip, at)];
      assert rows == (map i | i in old(rows) :: Consumed(old(rows)[i], f.email, at))
                     [id := Challenge(f.email, f.ip, f.progress.code, 0, l.maxAttempts, f.now + l.ttl, at, None)];
    }

    /** Both checks with nothing in between. */
    method CheckRequest(id: ChallengeId, email: nat, ip: nat, now: int) returns (allowed: bool)
      requires id !in used && id !in flights && l.slack >= 0
      modifies `flights, `used
      ensures allowed <==> HasRoom(rows, ip, now, l) && HasCooled(rows, email, now, l)
      ensures used == old(used) + {id}
      ensures flights == if allowed then old(flights)[id := Flight(email, ip, now, Looked)] else old(flights)
    {
      ghost var before := flights;
      BeginRequest(id, email, ip, now);
      allowed := CountRequest(id, now);
      if allowed {
        allowed := LookRequest(id, now);
      }
      assert !allowed ==> flights == before;
    }

    /** request_email_code with nothing in between; false stands for either refusal. */
    method RequestEmailCode(id: ChallengeId, email: nat, ip: nat, code: nat, now: int, at: int, known: bool)
      returns (allowed: bool)
      requires id !in used && id !in flights && now <= at <= now + l.slack
      modifies this
      ensures allowed <==> HasRoom(old(rows), ip, now, l) && HasCooled(old(rows), email, now, l)
      ensures var end := if allowed && known then at else now;
              View(end) == Undisturbed(old(View(now)), id, email, ip, code, at, known, l)
    {
      ghost var before := flights;
      allowed := CheckRequest(id, email, ip, now);
      if allowed {
        DrawCode(id, code, known, at);
        if known {
          CreateEmailChallenge(id, at);
        }
      }
      assert flights == before;
    }

    /** The mail could not be delivered. */
    method DeleteEmailChallenge(now: int, id: ChallengeId)
      modifies `rows, `sent
      ensures View(now) == Withdrawn(old(View(now)), id) && rows == old(rows) - {id}
    {
      rows, sent := rows - {id}, sent - {id};
    }

    /** consume_email_challenge: the first update succeeds on exactly one row, or the second counts the attempt. */
    method ConsumeEmailChallenge(id: ChallengeId, email: nat, code: nat, now: int) returns (valid: bool)
      modifies `rows, `wins
      ensures valid <==> Accepted(old(View(now)), View(now), id)
      ensures View(now) == Verified(old(View(now)), id, email, code, now)
    {
      if id in rows && rows[id].email == email && rows[id].code == code && rows[id].consumedAt.None?
         && rows[id].expiresAt > now && rows[id].attempts < rows[id].maxAttempts {
        wins := wins[id := WinsOf(View(now), id) + 1];
        rows := rows[id := rows[id].(consumedAt := Some(now))];
        return true;
      }
      if id in rows && rows[id].email == email && rows[id].consumedAt.None?
         && rows[id].expiresAt > now && rows[id].attempts < rows[id].maxAttempts {
        rows := rows[id := rows[id].(attempts := rows[id].attempts + 1)];
      }
      return false;
    }

    method CleanupExpired(now: int, cutoff: int)
      modifies `rows
      ensures View(now) == Cleaned(old(View(now)), cutoff)
      ensures forall i :: i in rows <==> i in old(rows) && old(rows)[i].expiresAt >= cutoff
      ensures forall i | i in rows :: rows[i] == old(rows)[i]
    {
      ghost var before := View(now);
      rows := map i | i in rows && rows[i].expiresAt >= cutoff :: rows[i];
      assert View(now) == Cleaned(before, cutoff);
    }
  }
}

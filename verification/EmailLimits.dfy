/**
 * What the sign-in codes promise over every run: how many challenges an address can get, how far apart the codes of one
 * e-mail are, single use, and the guess budget. Requests that overlap are counted.
 */
module EmailLimits {
  import opened Common
  import opened EmailCodes

  function InWindow(stamps: map<ChallengeId, Stamp>, ip: nat, from: int, length: int): set<ChallengeId> {
    set i | i in stamps && stamps[i].ip == ip && from < stamps[i].createdAt <= from + length
  }

  ghost predicate SpacedFor(stamps: map<ChallengeId, Stamp>, email: nat, l: Limits) {
    forall i, j | i in stamps && j in stamps && i != j && stamps[i].email == stamps[j].email == email ::
      stamps[i].createdAt <= stamps[j].createdAt ==> stamps[j].createdAt - stamps[i].createdAt >= l.cooldown
  }

  // ---------------------------------------------------------------- requests that overlap

  /** The address's requests that have passed the window check and may still create a challenge. */
  function Uncreated(d: Desk, ip: nat): set<ChallengeId> {
    set i | i in d.flights && d.flights[i].ip == ip && !d.flights[i].progress.Begun?
  }

  /** The only way to pass the window check. */
  predicate PassesCount(d: Desk, step: DeskStep, ip: nat, l: Limits)
    requires CanStep(d, step, l)
  {
    step.Count? && d.flights[step.id].ip == ip && HasRoom(d.rows, ip, d.flights[step.id].now, l)
  }

  /** The request passes the window check now, with this many others of its address between check and creation. */
  function Overlap(d: Desk, step: DeskStep, ip: nat, l: Limits): nat
    requires CanStep(d, step, l)
  {
    if PassesCount(d, step, ip, l) then |Uncreated(d, ip)| else 0
  }

  /** The most such requests that any request of the address met in the run. */
  function MostOverlap(d: Desk, steps: seq<DeskStep>, ip: nat, l: Limits): nat
    requires CanSteps(d, steps, l)
    decreases |steps|
  {
    if steps == [] then 0
    else Max(Overlap(d, steps[0], ip, l), MostOverlap(DoStep(d, steps[0], l), steps[1..], ip, l))
  }

  /** The e-mail's requests that have passed the cooldown check and may still create a challenge. */
  function Cooled(d: Desk, email: nat): set<ChallengeId> {
    set i | i in d.flights && d.flights[i].email == email
            && (d.flights[i].progress.Looked? || d.flights[i].progress.Stamped?)
  }

  /** The only way to pass the cooldown check. */
  predicate PassesLook(d: Desk, step: DeskStep, email: nat, l: Limits)
    requires CanStep(d, step, l)
  {
    step.Look? && d.flights[step.id].email == email && HasCooled(d.rows, email, d.flights[step.id].now, l)
  }

  /** No request for the e-mail passes the cooldown check while another is between that check and its creation. */
  predicate LooksAlone(d: Desk, steps: seq<DeskStep>, email: nat, l: Limits)
    requires CanSteps(d, steps, l)
    decreases |steps|
  {
    steps == [] ||
    (&& (PassesLook(d, steps[0], email, l) ==> Cooled(d, email) == {})
     && LooksAlone(DoStep(d, steps[0], l), steps[1..], email, l))
  }

  // ---------------------------------------------------------------- the tables

  /** At most one challenge of an e-mail can still be used. */
  ghost predicate OneOpen(rows: map<ChallengeId, Challenge>) {
    forall i, j | i in rows && j in rows && rows[i].email == rows[j].email
                  && rows[i].consumedAt.None? && rows[j].consumedAt.None? :: i == j
  }

  predicate RowOk(d: Desk, i: ChallengeId) {
    && (i in d.rows ==>
          && i in d.used
          && d.rows[i].createdAt <= d.clock
          && 0 <= d.rows[i].attempts <= Max(0, d.rows[i].maxAttempts)
          && (WinsOf(d, i) > 0 ==> d.rows[i].consumedAt.Some?))
    && WinsOf(d, i) <= 1
    && (WinsOf(d, i) == 1 || i in d.sent ==> i in d.used)
  }

  /** A request that has not created its challenge yet. */
  predicate FlightOk(d: Desk, i: ChallengeId) {
    i in d.flights ==>
      && i in d.used && i !in d.rows && i !in d.sent && WinsOf(d, i) == 0
      && d.flights[i].now <= d.clock
      && (d.flights[i].progress.Stamped? ==> d.flights[i].now <= d.flights[i].progress.at <= d.clock)
  }

  ghost predicate TableOk(d: Desk) {
    (forall i: ChallengeId :: RowOk(d, i) && FlightOk(d, i)) && OneOpen(d.rows)
  }

  lemma StepKeepsTable(d: Desk, step: DeskStep, l: Limits)
    requires TableOk(d) && CanStep(d, step, l)
    ensures TableOk(DoStep(d, step, l))
  {
    match step
    case Create(id) => CreationKeepsTable(d, id, l);
    case Verify(id, email, code, now) => VerificationKeepsTable(d, id, email, code, now);
    case MailFails(_) => FewerRowsKeepTable(d, DoStep(d, step, l));
    case Clean(_) => FewerRowsKeepTable(d, DoStep(d, step, l));
    case _ => FlightStepKeepsTable(d, step, l);
  }

  lemma FewerRowsKeepTable(d: Desk, d': Desk)
    requires TableOk(d) && d' == d.(rows := d'.rows, sent := d'.sent)
    requires forall i | i in d'.rows :: i in d.rows && d'.rows[i] == d.rows[i]
    requires forall i | i in d'.sent :: i in d.sent
    ensures TableOk(d')
  {
    forall i: ChallengeId ensures RowOk(d', i) && FlightOk(d', i) {
      assert RowOk(d, i) && FlightOk(d, i);
    }
  }

  /** The steps that leave the tables alone. */
  lemma FlightStepKeepsTable(d: Desk, step: DeskStep, l: Limits)
    requires TableOk(d) && CanStep(d, step, l)
    requires step.Pass? || step.Begin? || step.Count? || step.Look? || step.Draw? || step.Abandon?
    ensures TableOk(DoStep(d, step, l))
  {
    var d' := DoStep(d, step, l);
    forall i: ChallengeId ensures RowOk(d', i) && FlightOk(d', i) {
      assert RowOk(d, i) && FlightOk(d, i);
    }
  }

  lemma CreationKeepsTable(d: Desk, id: ChallengeId, l: Limits)
    requires TableOk(d) && CanStep(d, Create(id), l)
    ensures TableOk(DoStep(d, Create(id), l))
  {
    var d' := DoStep(d, Create(id), l);
    assert FlightOk(d, id);
    forall i: ChallengeId ensures RowOk(d', i) && FlightOk(d', i) {
      assert RowOk(d, i) && FlightOk(d, i);
    }
  }

  lemma VerificationKeepsTable(d: Desk, id: ChallengeId, email: nat, code: nat, now: int)
    requires TableOk(d)
    ensures TableOk(Verified(d, id, email, code, now))
  {
    var d' := Verified(d, id, email, code, now);
    assert RowOk(d, id) && FlightOk(d, id);
    forall i: ChallengeId ensures RowOk(d', i) && FlightOk(d', i) {
      assert RowOk(d, i) && FlightOk(d, i);
    }
  }

  lemma {:induction false} RunKeepsTable(d: Desk, steps: seq<DeskStep>, l: Limits)
    requires TableOk(d) && CanSteps(d, steps, l)
    ensures TableOk(DoSteps(d, steps, l))
    decreases |steps|
  {
    if steps != [] {
      StepKeepsTable(d, steps[0], l);
      RunKeepsTable(DoStep(d, steps[0], l), steps[1..], l);
    }
  }

  /** Over every run: one unused challenge per e-mail, one success per challenge, attempts within their limit. */
  lemma ChallengesAreUsedOnce(clock: int, steps: seq<DeskStep>, l: Limits, id: ChallengeId)
    requires CanSteps(Opened(clock), steps, l)
    ensures var d := DoSteps(Opened(clock), steps, l);
            && OneOpen(d.rows) && WinsOf(d, id) <= 1
            && (id in d.rows ==> d.rows[id].attempts <= Max(0, d.rows[id].maxAttempts))
  {
    RunKeepsTable(Opened(clock), steps, l);
    assert RowOk(DoSteps(Opened(clock), steps, l), id);
  }

  // ---------------------------------------------------------------- windows

  lemma {:induction false} SubsetIsSmaller(a: set<ChallengeId>, b: set<ChallengeId>)
    requires a <= b
    ensures |a| <= |b|
  {
    if a != {} {
      var x :| x in a;
      SubsetIsSmaller(a - {x}, b - {x});
    }
  }

  /** Requests past the window check that may still land in a window ending at `until`. */
  function Hopeful(flights: map<ChallengeId, Flight>, ip: nat, until: int): set<ChallengeId> {
    set i | i in flights && flights[i].ip == ip && !flights[i].progress.Begun? && flights[i].now <= until
  }

  /** Challenges in a window, and requests that may still add to it, within a bound. */
  predicate Bounded(stamps: map<ChallengeId, Stamp>, flights: map<ChallengeId, Flight>, ip: nat, from: int,
                    length: int, bound: nat) {
    |InWindow(stamps, ip, from, length)| + |Hopeful(flights, ip, from + length)| <= bound
  }

  lemma FewerStayBounded(stamps: map<ChallengeId, Stamp>, flights: map<ChallengeId, Flight>,
                         stamps': map<ChallengeId, Stamp>, flights': map<ChallengeId, Flight>,
                         ip: nat, from: int, length: int, bound: nat)
    requires Bounded(stamps, flights, ip, from, length, bound)
    requires InWindow(stamps', ip, from, length) <= InWindow(stamps, ip, from, length)
    requires Hopeful(flights', ip, from + length) <= Hopeful(flights, ip, from + length)
    ensures Bounded(stamps', flights', ip, from, length, bound)
  {
    SubsetIsSmaller(InWindow(stamps', ip, from, length), InWindow(stamps, ip, from, length));
    SubsetIsSmaller(Hopeful(flights', ip, from + length), Hopeful(flights, ip, from + length));
  }

  /** Passing the window check while other requests of the address are between check and creation. */
  lemma PassingStaysBounded(d: Desk, stamps: map<ChallengeId, Stamp>, id: ChallengeId, from: int, l: Limits, bound: nat)
    requires id in d.flights && d.flights[id].progress.Begun?
    requires Bounded(stamps, d.flights, d.flights[id].ip, from, l.window, bound)
    requires |Recent(stamps, d.flights[id].ip, d.flights[id].now - l.window)| < l.ipMax
    requires l.ipMax + |Uncreated(d, d.flights[id].ip)| <= bound
    ensures Bounded(stamps, Moved(d, id, Counted).flights, d.flights[id].ip, from, l.window, bound)
  {
    var ip, now := d.flights[id].ip, d.flights[id].now;
    OneMoreHopeful(d, id, from + l.window);
    if now <= from + l.window {
      SubsetIsSmaller(InWindow(stamps, ip, from, l.window), Recent(stamps, ip, now - l.window));
      SubsetIsSmaller(Hopeful(d.flights, ip, from + l.window), Uncreated(d, ip));
    }
  }

  lemma OneMoreHopeful(d: Desk, id: ChallengeId, until: int)
    requires id in d.flights && d.flights[id].progress.Begun?
    ensures |Hopeful(Moved(d, id, Counted).flights, d.flights[id].ip, until)|
            == |Hopeful(d.flights, d.flights[id].ip, until)| + if d.flights[id].now <= until then 1 else 0
  {
    var ip := d.flights[id].ip;
    var before, after := Hopeful(d.flights, ip, until), Hopeful(Moved(d, id, Counted).flights, ip, until);
    assert after == if d.flights[id].now <= until then before + {id} else before;
  }

  /** A creation takes the place its request had. */
  lemma LandingStaysBounded(stamps: map<ChallengeId, Stamp>, flights: map<ChallengeId, Flight>, id: ChallengeId,
                            c: Stamp, ip: nat, from: int, length: int, bound: nat)
    requires Bounded(stamps, flights, ip, from, length, bound)
    requires id in flights && id !in stamps && !flights[id].progress.Begun?
    requires c.ip == flights[id].ip && flights[id].now <= c.createdAt
    ensures Bounded(stamps[id := c], flights - {id}, ip, from, length, bound)
  {
    OneMoreInWindow(stamps, id, c, ip, from, length);
    OneHopefulLess(flights, id, ip, from + length);
  }

  lemma OneMoreInWindow(stamps: map<ChallengeId, Stamp>, id: ChallengeId, c: Stamp, ip: nat, from: int, length: int)
    requires id !in stamps
    ensures |InWindow(stamps[id := c], ip, from, length)|
            == |InWindow(stamps, ip, from, length)| + if c.ip == ip && from < c.createdAt <= from + length then 1 else 0
  {
    var before, after := InWindow(stamps, ip, from, length), InWindow(stamps[id := c], ip, from, length);
    assert after == if c.ip == ip && from < c.createdAt <= from + length then before + {id} else before;
  }

  lemma OneHopefulLess(flights: map<ChallengeId, Flight>, id: ChallengeId, ip: nat, until: int)
    requires id in flights && !flights[id].progress.Begun?
    ensures |Hopeful(flights - {id}, ip, until)|
            == |Hopeful(flights, ip, until)| - if flights[id].ip == ip && flights[id].now <= until then 1 else 0
  {
    var hoped, hopes := Hopeful(flights, ip, until), Hopeful(flights - {id}, ip, until);
    assert hopes == hoped - {id};
  }

  function Bound(l: Limits, overlap: nat): nat {
    Max(0, l.ipMax) + overlap
  }

  ghost predicate Windowed(d: Desk, ip: nat, l: Limits, overlap: nat) {
    forall from: int :: Bounded(Stamps(d.rows), d.flights, ip, from, l.window, Bound(l, overlap))
  }

  lemma CreatedStamps(d: Desk, id: ChallengeId, f: Flight, code: nat, at: int, l: Limits)
    ensures Stamps(Created(d, id, f, code, at, l).rows) == Stamps(d.rows)[id := Stamp(f.email, f.ip, at)]
  {
  }

  lemma StepKeepsWindowed(d: Desk, step: DeskStep, ip: nat, l: Limits, overlap: nat)
    requires TableOk(d) && CanStep(d, step, l) && Windowed(d, ip, l, overlap) && Overlap(d, step, ip, l) <= overlap
    ensures Windowed(DoStep(d, step, l), ip, l, overlap)
  {
    var d' := DoStep(d, step, l);
    forall from: int ensures Bounded(Stamps(d'.rows), d'.flights, ip, from, l.window, Bound(l, overlap)) {
      assert Bounded(Stamps(d.rows), d.flights, ip, from, l.window, Bound(l, overlap));
      StepStaysBounded(d, step, ip, from, l, Bound(l, overlap));
    }
  }

  lemma StepStaysBounded(d: Desk, step: DeskStep, ip: nat, from: int, l: Limits, bound: nat)
    requires TableOk(d) && CanStep(d, step, l) && Bounded(Stamps(d.rows), d.flights, ip, from, l.window, bound)
    requires PassesCount(d, step, ip, l) ==> l.ipMax + |Uncreated(d, ip)| <= bound
    ensures var d' := DoStep(d, step, l); Bounded(Stamps(d'.rows), d'.flights, ip, from, l.window, bound)
  {
    if PassesCount(d, step, ip, l) {
      PassingStaysBounded(d, Stamps(d.rows), step.id, from, l, bound);
    } else if step.Create? {
      var f := d.flights[step.id];
      assert FlightOk(d, step.id);
      CreatedStamps(d, step.id, f, f.progress.code, f.progress.at, l);
      LandingStaysBounded(Stamps(d.rows), d.flights, step.id, Stamp(f.email, f.ip, f.progress.at), ip, from, l.window,
                          bound);
    } else {
      var d' := DoStep(d, step, l);
      NobodyHopesMore(d, step, ip, from + l.window, l);
      NoNewStamps(d, step, l);
      FewerStayBounded(Stamps(d.rows), d.flights, Stamps(d'.rows), d'.flights, ip, from, l.window, bound);
    }
  }

  lemma NobodyHopesMore(d: Desk, step: DeskStep, ip: nat, until: int, l: Limits)
    requires TableOk(d) && CanStep(d, step, l) && !PassesCount(d, step, ip, l) && !step.Create?
    ensures Hopeful(DoStep(d, step, l).flights, ip, until) <= Hopeful(d.flights, ip, until)
  {
  }

  /** Only a creation adds to what is stored or sent. */
  lemma NoNewStamps(d: Desk, step: DeskStep, l: Limits)
    requires CanStep(d, step, l) && !step.Create?
    ensures var d' := DoStep(d, step, l);
            && (forall i | i in d'.rows :: i in d.rows && StampOf(d'.rows[i]) == StampOf(d.rows[i]))
            && (forall i | i in d'.sent :: i in d.sent && d'.sent[i] == d.sent[i])
  {
  }

  lemma {:induction false} RunKeepsWindowed(d: Desk, steps: seq<DeskStep>, ip: nat, l: Limits, overlap: nat)
    requires TableOk(d) && CanSteps(d, steps, l) && Windowed(d, ip, l, overlap)
    requires MostOverlap(d, steps, ip, l) <= overlap
    ensures Windowed(DoSteps(d, steps, l), ip, l, overlap)
    decreases |steps|
  {
    if steps != [] {
      StepKeepsTable(d, steps[0], l);
      StepKeepsWindowed(d, steps[0], ip, l, overlap);
      RunKeepsWindowed(DoStep(d, steps[0], l), steps[1..], ip, l, overlap);
    }
  }

  lemma OpenedIsBounded(clock: int, ip: nat, l: Limits, overlap: nat)
    ensures TableOk(Opened(clock)) && Windowed(Opened(clock), ip, l, overlap)
  {
    var d := Opened(clock);
    forall from: int ensures Bounded(Stamps(d.rows), d.flights, ip, from, l.window, Bound(l, overlap)) {
      assert InWindow(Stamps(d.rows), ip, from, l.window) == {} && Hopeful(d.flights, ip, from + l.window) == {};
    }
  }

  /**
   * Over every run: a half-open window holds at most ipMax stored challenges of an address, and one more for each
   * request of the address that another one met between its window check and its creation, at most.
   */
  lemma StoredChallengesAreLimited(clock: int, steps: seq<DeskStep>, l: Limits, ip: nat, from: int)
    requires CanSteps(Opened(clock), steps, l)
    ensures |InWindow(Stamps(DoSteps(Opened(clock), steps, l).rows), ip, from, l.window)|
            <= Max(0, l.ipMax) + MostOverlap(Opened(clock), steps, ip, l)
  {
    var overlap := MostOverlap(Opened(clock), steps, ip, l);
    OpenedIsBounded(clock, ip, l, overlap);
    RunKeepsWindowed(Opened(clock), steps, ip, l, overlap);
    var d := DoSteps(Opened(clock), steps, l);
    assert Bounded(Stamps(d.rows), d.flights, ip, from, l.window, Bound(l, overlap));
  }

  // ---------------------------------------------------------------- spacing

  /** Stored codes of the e-mail are a cooldown apart, and so is the one that may still come. */
  ghost predicate Apart(stamps: map<ChallengeId, Stamp>, d: Desk, email: nat, l: Limits) {
    && SpacedFor(stamps, email, l)
    && (forall i, j | i in Cooled(d, email) && j in Cooled(d, email) :: i == j)
    && forall i, j | i in Cooled(d, email) && j in stamps && stamps[j].email == email ::
         d.flights[i].now - stamps[j].createdAt >= l.cooldown
  }

  lemma PassingStaysApart(d: Desk, stamps: map<ChallengeId, Stamp>, id: ChallengeId, l: Limits)
    requires id in d.flights && Apart(stamps, d, d.flights[id].email, l) && Cooled(d, d.flights[id].email) == {}
    requires forall j | j in stamps && stamps[j].email == d.flights[id].email ::
               d.flights[id].now - stamps[j].createdAt >= l.cooldown
    ensures Apart(stamps, Moved(d, id, Looked), d.flights[id].email, l)
  {
    forall i | i in Cooled(Moved(d, id, Looked), d.flights[id].email) ensures i == id {
      assert i !in Cooled(d, d.flights[id].email);
    }
  }

  lemma LandingStaysApart(d: Desk, d': Desk, stamps: map<ChallengeId, Stamp>, id: ChallengeId, c: Stamp, email: nat,
                          l: Limits)
    requires Apart(stamps, d, email, l) && id in d.flights && d.flights[id].progress.Stamped? && id !in stamps
    requires c.email == d.flights[id].email && d.flights[id].now <= c.createdAt && d'.flights == d.flights - {id}
    ensures Apart(stamps[id := c], d', email, l)
  {
    if c.email == email {
      assert id in Cooled(d, email);
      assert forall i | i in Cooled(d, email) :: i == id;
      assert Cooled(d', email) <= Cooled(d, email) - {id};
    } else {
      assert Cooled(d', email) <= Cooled(d, email);
    }
  }

  lemma FewerStayApart(d: Desk, d': Desk, stamps: map<ChallengeId, Stamp>, stamps': map<ChallengeId, Stamp>, email: nat,
                       l: Limits)
    requires Apart(stamps, d, email, l) && Cooled(d', email) <= Cooled(d, email)
    requires forall i | i in Cooled(d', email) :: i in d.flights && d'.flights[i].now == d.flights[i].now
    requires forall i | i in stamps' :: i in stamps && stamps'[i] == stamps[i]
    ensures Apart(stamps', d', email, l)
  {
  }

  /** A step other than passing the check or creating lets nobody past the check. */
  lemma NobodyPasses(d: Desk, step: DeskStep, email: nat, l: Limits)
    requires TableOk(d) && CanStep(d, step, l) && !PassesLook(d, step, email, l) && !step.Create?
    ensures var d' := DoStep(d, step, l);
            && Cooled(d', email) <= Cooled(d, email)
            && (forall i | i in Cooled(d', email) :: i in d.flights && d'.flights[i].now == d.flights[i].now)
            && (forall i | i in Stamps(d'.rows) :: i in Stamps(d.rows) && Stamps(d'.rows)[i] == Stamps(d.rows)[i])
  {
    if step.Begin? { assert FlightOk(d, step.id); }
  }

  lemma StepKeepsApart(d: Desk, step: DeskStep, email: nat, l: Limits)
    requires TableOk(d) && CanStep(d, step, l) && Apart(Stamps(d.rows), d, email, l)
    requires PassesLook(d, step, email, l) ==> Cooled(d, email) == {}
    ensures Apart(Stamps(DoStep(d, step, l).rows), DoStep(d, step, l), email, l)
  {
    var d' := DoStep(d, step, l);
    if PassesLook(d, step, email, l) {
      PassingStaysApart(d, Stamps(d.rows), step.id, l);
    } else if step.Create? {
      var f := d.flights[step.id];
      assert FlightOk(d, step.id);
      CreatedStamps(d, step.id, f, f.progress.code, f.progress.at, l);
      LandingStaysApart(d, d', Stamps(d.rows), step.id, Stamp(f.email, f.ip, f.progress.at), email, l);
    } else {
      NobodyPasses(d, step, email, l);
      FewerStayApart(d, d', Stamps(d.rows), Stamps(d'.rows), email, l);
    }
  }

  lemma {:induction false} RunKeepsApart(d: Desk, steps: seq<DeskStep>, email: nat, l: Limits)
    requires TableOk(d) && CanSteps(d, steps, l) && LooksAlone(d, steps, email, l) && Apart(Stamps(d.rows), d, email, l)
    ensures Apart(Stamps(DoSteps(d, steps, l).rows), DoSteps(d, steps, l), email, l)
    decreases |steps|
  {
    if steps != [] {
      StepKeepsTable(d, steps[0], l);
      StepKeepsApart(d, steps[0], email, l);
      RunKeepsApart(DoStep(d, steps[0], l), steps[1..], email, l);
    }
  }

  /** Over every run in which no two requests for the e-mail overlap, its stored codes are at least a cooldown apart. */
  lemma StoredCodesAreSpaced(clock: int, steps: seq<DeskStep>, l: Limits, email: nat)
    requires CanSteps(Opened(clock), steps, l) && LooksAlone(Opened(clock), steps, email, l)
    ensures SpacedFor(Stamps(DoSteps(Opened(clock), steps, l).rows), email, l)
  {
    OpenedIsBounded(clock, 0, l, 0);
    RunKeepsApart(Opened(clock), steps, email, l);
  }

  // ---------------------------------------------------------------- the same for everything ever sent

  /** Cleanup never removes a row that the window or the cooldown of a request at work could still need. */
  predicate CleansLate(l: Limits) {
    l.slack >= 0 && l.window + 2 * l.slack <= l.ttl + l.horizon && l.cooldown + 2 * l.slack <= l.ttl + l.horizon
  }

  predicate SentRowOk(d: Desk, i: ChallengeId, l: Limits) {
    && (i in d.rows ==> i in d.sent && d.sent[i] == StampOf(d.rows[i])
                        && d.rows[i].createdAt <= d.rows[i].expiresAt - l.ttl + l.slack)
    && (i in d.flights && d.flights[i].progress.Stamped? ==> d.flights[i].progress.at <= d.flights[i].now + l.slack)
    && (i in d.sent && i !in d.rows ==>
          && d.sent[i].createdAt + l.window + l.slack <= d.clock
          && d.sent[i].createdAt + l.cooldown + l.slack <= d.clock)
  }

  ghost predicate SentOk(d: Desk, l: Limits) {
    forall i: ChallengeId :: SentRowOk(d, i, l)
  }

  lemma StepKeepsSent(d: Desk, step: DeskStep, l: Limits)
    requires TableOk(d) && SentOk(d, l) && CleansLate(l) && CanStep(d, step, l)
    ensures SentOk(DoStep(d, step, l), l)
  {
    var d' := DoStep(d, step, l);
    forall i: ChallengeId ensures SentRowOk(d', i, l) {
      assert SentRowOk(d, i, l) && FlightOk(d, i);
    }
  }

  /** What cleanup has removed, no request at work would have counted. */
  lemma CountsAllSent(d: Desk, id: ChallengeId, l: Limits)
    requires SentOk(d, l) && At(d, id, Begun, l)
    ensures var since := d.flights[id].now - l.window;
            |Recent(d.sent, d.flights[id].ip, since)| <= |Recent(Stamps(d.rows), d.flights[id].ip, since)|
  {
    var ip, since := d.flights[id].ip, d.flights[id].now - l.window;
    forall i | i in Recent(d.sent, ip, since) ensures i in Recent(Stamps(d.rows), ip, since) {
      assert SentRowOk(d, i, l);
    }
    SubsetIsSmaller(Recent(d.sent, ip, since), Recent(Stamps(d.rows), ip, since));
  }

  ghost predicate SentWindowed(d: Desk, ip: nat, l: Limits, overlap: nat) {
    forall from: int :: Bounded(d.sent, d.flights, ip, from, l.window, Bound(l, overlap))
  }

  lemma StepKeepsSentWindowed(d: Desk, step: DeskStep, ip: nat, l: Limits, overlap: nat)
    requires TableOk(d) && SentOk(d, l) && CanStep(d, step, l)
    requires SentWindowed(d, ip, l, overlap) && Overlap(d, step, ip, l) <= overlap
    ensures SentWindowed(DoStep(d, step, l), ip, l, overlap)
  {
    var d' := DoStep(d, step, l);
    forall from: int ensures Bounded(d'.sent, d'.flights, ip, from, l.window, Bound(l, overlap)) {
      assert Bounded(d.sent, d.flights, ip, from, l.window, Bound(l, overlap));
      if PassesCount(d, step, ip, l) {
        CountsAllSent(d, step.id, l);
        PassingStaysBounded(d, d.sent, step.id, from, l, Bound(l, overlap));
      } else if step.Create? {
        var f := d.flights[step.id];
        assert FlightOk(d, step.id);
        LandingStaysBounded(d.sent, d.flights, step.id, Stamp(f.email, f.ip, f.progress.at), ip, from, l.window,
                            Bound(l, overlap));
      } else {
        NobodyHopesMore(d, step, ip, from + l.window, l);
        NoNewStamps(d, step, l);
        FewerStayBounded(d.sent, d.flights, d'.sent, d'.flights, ip, from, l.window, Bound(l, overlap));
      }
    }
  }

  lemma StepKeepsSentApart(d: Desk, step: DeskStep, email: nat, l: Limits)
    requires TableOk(d) && SentOk(d, l) && CanStep(d, step, l) && Apart(d.sent, d, email, l)
    requires PassesLook(d, step, email, l) ==> Cooled(d, email) == {}
    ensures Apart(DoStep(d, step, l).sent, DoStep(d, step, l), email, l)
  {
    var d' := DoStep(d, step, l);
    if PassesLook(d, step, email, l) {
      forall j | j in d.sent && d.sent[j].email == email
        ensures d.flights[step.id].now - d.sent[j].createdAt >= l.cooldown
      {
        assert SentRowOk(d, j, l);
      }
      PassingStaysApart(d, d.sent, step.id, l);
    } else if step.Create? {
      var f := d.flights[step.id];
      assert FlightOk(d, step.id);
      LandingStaysApart(d, d', d.sent, step.id, Stamp(f.email, f.ip, f.progress.at), email, l);
    } else {
      NobodyPasses(d, step, email, l);
      FewerStayApart(d, d', d.sent, d'.sent, email, l);
    }
  }

  lemma {:induction false} RunKeepsSent(d: Desk, steps: seq<DeskStep>, ip: nat, email: nat, l: Limits, overlap: nat)
    requires TableOk(d) && SentOk(d, l) && CleansLate(l) && CanSteps(d, steps, l)
    requires SentWindowed(d, ip, l, overlap) && MostOverlap(d, steps, ip, l) <= overlap
    ensures SentWindowed(DoSteps(d, steps, l), ip, l, overlap)
    ensures Apart(d.sent, d, email, l) && LooksAlone(d, steps, email, l) ==>
              Apart(DoSteps(d, steps, l).sent, DoSteps(d, steps, l), email, l)
    decreases |steps|
  {
    if steps != [] {
      StepKeepsTable(d, steps[0], l);
      StepKeepsSent(d, steps[0], l);
      StepKeepsSentWindowed(d, steps[0], ip, l, overlap);
      if Apart(d.sent, d, email, l) && LooksAlone(d, steps, email, l) {
        StepKeepsSentApart(d, steps[0], email, l);
      }
      RunKeepsSent(DoStep(d, steps[0], l), steps[1..], ip, email, l, overlap);
    }
  }

  /** Both bounds for everything ever sent, whatever cleanup has removed since, provided cleanup is not too eager. */
  lemma SentChallengesAreLimited(clock: int, steps: seq<DeskStep>, l: Limits, ip: nat, email: nat, from: int)
    requires CanSteps(Opened(clock), steps, l) && CleansLate(l)
    ensures |InWindow(DoSteps(Opened(clock), steps, l).sent, ip, from, l.window)|
            <= Max(0, l.ipMax) + MostOverlap(Opened(clock), steps, ip, l)
    ensures LooksAlone(Opened(clock), steps, email, l) ==>
              SpacedFor(DoSteps(Opened(clock), steps, l).sent, email, l)
  {
    var overlap := MostOverlap(Opened(clock), steps, ip, l);
    OpenedIsBounded(clock, ip, l, overlap);
    assert Stamps(Opened(clock).rows) == Opened(clock).sent;
    RunKeepsSent(Opened(clock), steps, ip, email, l, overlap);
    var d := DoSteps(Opened(clock), steps, l);
    assert Bounded(d.sent, d.flights, ip, from, l.window, Bound(l, overlap));
  }

  // ---------------------------------------------------------------- the window is half-open

  /** Both ends of the window counted. */
  function InClosedWindow(stamps: map<ChallengeId, Stamp>, ip: nat, from: int, length: int): set<ChallengeId> {
    set i | i in stamps && stamps[i].ip == ip && from <= stamps[i].createdAt <= from + length
  }

  lemma ClosedIsTwoWindows(stamps: map<ChallengeId, Stamp>, ip: nat, from: int, length: int)
    requires length > 0
    ensures |InClosedWindow(stamps, ip, from, length)|
            <= |InWindow(stamps, ip, from, length)| + |InWindow(stamps, ip, from - length, length)|
  {
    SubsetIsSmaller(InClosedWindow(stamps, ip, from, length),
                    InWindow(stamps, ip, from, length) + InWindow(stamps, ip, from - length, length));
  }

  /** Over every run a closed window holds at most twice as many: what is at its start fits in the window before. */
  lemma ClosedWindowHoldsAtMostTwice(clock: int, steps: seq<DeskStep>, l: Limits, ip: nat, from: int)
    requires CanSteps(Opened(clock), steps, l)
    ensures var stamps := Stamps(DoSteps(Opened(clock), steps, l).rows);
            l.window > 0 ==> |InClosedWindow(stamps, ip, from, l.window)|
                             <= 2 * (Max(0, l.ipMax) + MostOverlap(Opened(clock), steps, ip, l))
  {
    var stamps := Stamps(DoSteps(Opened(clock), steps, l).rows);
    StoredChallengesAreLimited(clock, steps, l, ip, from);
    StoredChallengesAreLimited(clock, steps, l, ip, from - l.window);
    if l.window > 0 {
      ClosedIsTwoWindows(stamps, ip, from, l.window);
    }
  }

  // ---------------------------------------------------------------- guesses

  /** No code for this challenge will be accepted any more. */
  predicate Dead(d: Desk, id: ChallengeId) {
    && id in d.used && id !in d.flights
    && (id in d.rows ==> d.rows[id].consumedAt.Some? || d.rows[id].attempts >= d.rows[id].maxAttempts)
  }

  /** A wrong code for the right e-mail, before the challenge expires. */
  predicate WrongGuess(d: Desk, step: DeskStep, id: ChallengeId) {
    && step.Verify? && step.id == id && id in d.rows
    && step.email == d.rows[id].email && step.code != d.rows[id].code && step.now < d.rows[id].expiresAt
  }

  function WrongGuesses(d: Desk, steps: seq<DeskStep>, id: ChallengeId, l: Limits): nat
    requires CanSteps(d, steps, l)
    decreases |steps|
  {
    if steps == [] then 0
    else (if WrongGuess(d, steps[0], id) then 1 else 0) + WrongGuesses(DoStep(d, steps[0], l), steps[1..], id, l)
  }

  function Hits(d: Desk, steps: seq<DeskStep>, id: ChallengeId, l: Limits): nat
    requires CanSteps(d, steps, l)
    decreases |steps|
  {
    if steps == [] then 0
    else
      var s := steps[0];
      (if s.Verify? && s.id == id && Accepted(d, DoStep(d, s, l), id) then 1 else 0)
      + Hits(DoStep(d, s, l), steps[1..], id, l)
  }

  lemma DeadStaysDead(d: Desk, step: DeskStep, id: ChallengeId, l: Limits)
    requires Dead(d, id) && CanStep(d, step, l)
    ensures Dead(DoStep(d, step, l), id)
    ensures step.Verify? && step.id == id ==> !Accepted(d, DoStep(d, step, l), id)
  {
  }

  lemma {:induction false} DeadIsNeverHit(d: Desk, steps: seq<DeskStep>, id: ChallengeId, l: Limits)
    requires Dead(d, id) && CanSteps(d, steps, l)
    ensures Hits(d, steps, id, l) == 0
    decreases |steps|
  {
    if steps != [] {
      DeadStaysDead(d, steps[0], id, l);
      DeadIsNeverHit(DoStep(d, steps[0], l), steps[1..], id, l);
    }
  }

  /** The guesses a challenge can still take. */
  function GuessesLeft(d: Desk, id: ChallengeId): nat {
    if Dead(d, id) || id !in d.rows then 0 else Max(0, d.rows[id].maxAttempts - d.rows[id].attempts)
  }

  lemma StepUsesGuess(d: Desk, step: DeskStep, id: ChallengeId, l: Limits)
    requires CanStep(d, step, l) && id in d.used && id !in d.flights && !Dead(d, id)
    ensures id in DoStep(d, step, l).used && id !in DoStep(d, step, l).flights
    ensures GuessesLeft(DoStep(d, step, l), id) + (if WrongGuess(d, step, id) then 1 else 0) <= GuessesLeft(d, id)
  {
  }

  /**
   * The guess budget: once as many wrong codes have been tried in time as the created challenge had attempts left, it
   * is dead, and no code for it is accepted in any continuation of the run.
   */
  lemma {:induction false} GuessBudget(d: Desk, steps: seq<DeskStep>, later: seq<DeskStep>, id: ChallengeId, l: Limits)
    requires id in d.used && id !in d.flights && CanSteps(d, steps, l) && CanSteps(DoSteps(d, steps, l), later, l)
    requires WrongGuesses(d, steps, id, l) >= GuessesLeft(d, id)
    ensures Dead(DoSteps(d, steps, l), id)
    ensures Hits(DoSteps(d, steps, l), later, id, l) == 0
    decreases |steps|
  {
    if steps == [] {
      DeadIsNeverHit(d, later, id, l);
    } else {
      var d' := DoStep(d, steps[0], l);
      if Dead(d, id) {
        DeadStaysDead(d, steps[0], id, l);
      } else {
        StepUsesGuess(d, steps[0], id, l);
      }
      GuessBudget(d', steps[1..], later, id, l);
    }
  }
}

/**
 * Which code is accepted. The fate of a challenge is told from the steps of a run alone: what was drawn for it, what
 * has used it up or withdrawn it since, and how often somebody guessed wrong. Its row decides exactly as its fate does.
 */
module EmailFates {
  import opened Common
  import opened EmailCodes
  import opened EmailLimits

  datatype Fate =
    | Unborn
    | Alive(email: nat, code: nat, expires: int, guesses: nat)
    | Gone

  /** The verification names the right e-mail before the expiry, and an attempt is left. */
  predicate InTime(fate: Fate, email: nat, now: int, l: Limits) {
    fate.Alive? && email == fate.email && now < fate.expires && fate.guesses < l.maxAttempts
  }

  /**
   * What one step does to the fate of a challenge. It is born with the code drawn for it, to live for `ttl` from the
   * request's first clock reading; it is gone once its code was given in time, a later challenge for its e-mail was
   * created, its mail has failed, or cleanup has removed it; every other code in time costs an attempt.
   */
  function Onward(fate: Fate, d: Desk, step: DeskStep, id: ChallengeId, l: Limits): Fate
    requires CanStep(d, step, l)
  {
    match step
    case Create(other) =>
      var f := d.flights[other];
      if other == id then Alive(f.email, f.progress.code, f.now + l.ttl, 0)
      else if fate.Alive? && f.email == fate.email then Gone
      else fate
    case MailFails(other) => if other == id && fate.Alive? then Gone else fate
    case Clean(cutoff) => if fate.Alive? && fate.expires < cutoff then Gone else fate
    case Verify(other, email, code, now) =>
      if other != id || !InTime(fate, email, now, l) then fate
      else if code == fate.code then Gone
      else fate.(guesses := fate.guesses + 1)
    case _ => fate
  }

  function FateAfter(fate: Fate, d: Desk, steps: seq<DeskStep>, id: ChallengeId, l: Limits): Fate
    requires CanSteps(d, steps, l)
    decreases |steps|
  {
    if steps == [] then fate
    else FateAfter(Onward(fate, d, steps[0], id, l), DoStep(d, steps[0], l), steps[1..], id, l)
  }

  /** The row of a challenge and its fate agree. */
  predicate Tracks(d: Desk, id: ChallengeId, fate: Fate, l: Limits) {
    match fate
    case Unborn => id !in d.rows
    case Alive(email, code, expires, guesses) =>
      && id in d.rows && id in d.used && id !in d.flights
      && d.rows[id].email == email && d.rows[id].code == code && d.rows[id].expiresAt == expires
      && d.rows[id].attempts == guesses && d.rows[id].maxAttempts == l.maxAttempts && d.rows[id].consumedAt.None?
    case Gone => id in d.used && id !in d.flights && (id in d.rows ==> d.rows[id].consumedAt.Some?)
  }

  lemma CreationTracks(d: Desk, created: ChallengeId, id: ChallengeId, fate: Fate, l: Limits)
    requires TableOk(d) && CanStep(d, Create(created), l) && Tracks(d, id, fate, l)
    ensures Tracks(DoStep(d, Create(created), l), id, Onward(fate, d, Create(created), id, l), l)
  {
    assert FlightOk(d, created);
  }

  lemma StepTracks(d: Desk, step: DeskStep, id: ChallengeId, fate: Fate, l: Limits)
    requires TableOk(d) && CanStep(d, step, l) && Tracks(d, id, fate, l)
    ensures Tracks(DoStep(d, step, l), id, Onward(fate, d, step, id, l), l)
  {
    match step
    case Create(created) => CreationTracks(d, created, id, fate, l);
    case _ =>
  }

  lemma {:induction false} RunTracks(d: Desk, steps: seq<DeskStep>, id: ChallengeId, fate: Fate, l: Limits)
    requires TableOk(d) && CanSteps(d, steps, l) && Tracks(d, id, fate, l)
    ensures TableOk(DoSteps(d, steps, l)) && Tracks(DoSteps(d, steps, l), id, FateAfter(fate, d, steps, id, l), l)
    decreases |steps|
  {
    if steps != [] {
      StepTracks(d, steps[0], id, fate, l);
      StepKeepsTable(d, steps[0], l);
      RunTracks(DoStep(d, steps[0], l), steps[1..], id, Onward(fate, d, steps[0], id, l), l);
    }
  }

  /**
   * After every run a verification is accepted if and only if the challenge is still alive, the e-mail is its own, the
   * code is the one drawn at its creation, it is not yet expired, and an attempt is left.
   */
  lemma CodeIsAcceptedIff(clock: int, steps: seq<DeskStep>, l: Limits, id: ChallengeId, email: nat, code: nat, now: int)
    requires CanSteps(Opened(clock), steps, l)
    ensures var d, fate := DoSteps(Opened(clock), steps, l), FateAfter(Unborn, Opened(clock), steps, id, l);
            Accepted(d, Verified(d, id, email, code, now), id)
            <==> fate.Alive? && email == fate.email && code == fate.code && now < fate.expires
                 && fate.guesses < l.maxAttempts
  {
    OpenedIsBounded(clock, 0, l, 0);
    RunTracks(Opened(clock), steps, id, Unborn, l);
  }

  lemma GoneForGood(d: Desk, step: DeskStep, id: ChallengeId, l: Limits)
    requires TableOk(d) && CanStep(d, step, l) && Tracks(d, id, Gone, l)
    ensures Onward(Gone, d, step, id, l) == Gone
  {
  }

  /** A challenge whose fate is known is accepted at most once more, and not at all if it is gone. */
  lemma {:induction false} HitsAreFated(d: Desk, steps: seq<DeskStep>, id: ChallengeId, fate: Fate, l: Limits)
    requires TableOk(d) && CanSteps(d, steps, l) && Tracks(d, id, fate, l)
    ensures Hits(d, steps, id, l) <= if fate.Gone? then 0 else 1
    decreases |steps|
  {
    if steps != [] {
      var d', fate' := DoStep(d, steps[0], l), Onward(fate, d, steps[0], id, l);
      StepTracks(d, steps[0], id, fate, l);
      StepKeepsTable(d, steps[0], l);
      HitsAreFated(d', steps[1..], id, fate', l);
      if fate.Gone? { GoneForGood(d, steps[0], id, l); }
    }
  }

  /** Over every run a challenge is accepted at most once. */
  lemma ChallengeSucceedsOnce(clock: int, steps: seq<DeskStep>, l: Limits, id: ChallengeId)
    requires CanSteps(Opened(clock), steps, l)
    ensures Hits(Opened(clock), steps, id, l) <= 1
  {
    OpenedIsBounded(clock, 0, l, 0);
    HitsAreFated(Opened(clock), steps, id, Unborn, l);
  }

  // ---------------------------------------------------------------- the right code in time

  /** Nothing that ends a challenge: no later challenge for its e-mail, no failed mail, no cleanup of it. */
  predicate Spares(fate: Fate, d: Desk, step: DeskStep, id: ChallengeId, l: Limits)
    requires CanStep(d, step, l)
  {
    fate.Alive? ==>
      match step
      case Create(other) => other == id || d.flights[other].email != fate.email
      case MailFails(other) => other != id
      case Clean(cutoff) => cutoff <= fate.expires
      case Verify(other, email, code, now) => other == id ==> code != fate.code || !InTime(fate, email, now, l)
      case _ => true
  }

  /** None of the steps ends it. */
  predicate SparesAll(fate: Fate, d: Desk, steps: seq<DeskStep>, id: ChallengeId, l: Limits)
    requires CanSteps(d, steps, l)
    decreases |steps|
  {
    steps == [] ||
    (Spares(fate, d, steps[0], id, l)
     && SparesAll(Onward(fate, d, steps[0], id, l), DoStep(d, steps[0], l), steps[1..], id, l))
  }

  lemma {:induction false} SparedLives(fate: Fate, d: Desk, steps: seq<DeskStep>, id: ChallengeId, l: Limits)
    requires fate.Alive? && TableOk(d) && Tracks(d, id, fate, l)
    requires CanSteps(d, steps, l) && SparesAll(fate, d, steps, id, l)
    ensures var after := FateAfter(fate, d, steps, id, l);
            && after.Alive? && after == Alive(fate.email, fate.code, fate.expires, after.guesses)
            && after.guesses <= fate.guesses + WrongGuesses(d, steps, id, l)
    decreases |steps|
  {
    if steps != [] {
      StepTracks(d, steps[0], id, fate, l);
      StepKeepsTable(d, steps[0], l);
      SparedLives(Onward(fate, d, steps[0], id, l), DoStep(d, steps[0], l), steps[1..], id, l);
    }
  }

  /**
   * The code that was drawn is accepted in time, whatever else happened since the creation: unless the challenge was
   * used, superseded, withdrawn or cleaned up, or as many wrong codes came in time as attempts are allowed.
   */
  lemma RightCodeSucceeds(d: Desk, id: ChallengeId, steps: seq<DeskStep>, l: Limits, now: int)
    requires TableOk(d) && CanStep(d, Create(id), l) && CanSteps(DoStep(d, Create(id), l), steps, l)
    requires var born := Alive(d.flights[id].email, d.flights[id].progress.code, d.flights[id].now + l.ttl, 0);
             && SparesAll(born, DoStep(d, Create(id), l), steps, id, l)
             && WrongGuesses(DoStep(d, Create(id), l), steps, id, l) < l.maxAttempts
    requires now < d.flights[id].now + l.ttl
    ensures var end := DoSteps(DoStep(d, Create(id), l), steps, l);
            Accepted(end, Verified(end, id, d.flights[id].email, d.flights[id].progress.code, now), id)
  {
    var d', born := DoStep(d, Create(id), l), Onward(Unborn, d, Create(id), id, l);
    assert FlightOk(d, id);
    StepKeepsTable(d, Create(id), l);
    StepTracks(d, Create(id), id, Unborn, l);
    SparedLives(born, d', steps, id, l);
    RunTracks(d', steps, id, born, l);
  }
}

/** Runs that meet the limits of the sign-in codes exactly, and runs that exceed the plain limits by overlapping. */
module EmailRuns {
  import opened Common
  import opened EmailCodes
  import opened EmailLimits

  /** The steps lead from d to `end`, with this much overlap at the address. */
  ghost predicate Leads(d: Desk, steps: seq<DeskStep>, ip: nat, l: Limits, end: Desk, overlap: nat) {
    CanSteps(d, steps, l) && DoSteps(d, steps, l) == end && MostOverlap(d, steps, ip, l) == overlap
  }

  lemma NoSteps(d: Desk, ip: nat, l: Limits)
    ensures Leads(d, [], ip, l, d, 0)
  {
  }

  lemma OneStep(d: Desk, step: DeskStep, ip: nat, l: Limits)
    requires CanStep(d, step, l)
    ensures Leads(d, [step], ip, l, DoStep(d, step, l), Overlap(d, step, ip, l))
  {
    assert [step][1..] == [];
    NoSteps(DoStep(d, step, l), ip, l);
  }

  lemma {:induction false} Goes(d: Desk, a: seq<DeskStep>, mid: Desk, m: nat, b: seq<DeskStep>, end: Desk, n: nat,
                                ip: nat, l: Limits)
    requires Leads(d, a, ip, l, mid, m) && Leads(mid, b, ip, l, end, n)
    ensures Leads(d, a + b, ip, l, end, Max(m, n))
    decreases |a|
  {
    if a == [] {
      assert a + b == b;
    } else {
      assert (a + b)[1..] == a[1..] + b;
      var d1 := DoStep(d, a[0], l);
      Goes(d1, a[1..], mid, MostOverlap(d1, a[1..], ip, l), b, end, n, ip, l);
    }
  }

  /** A request up to the reading of its creation time, with nothing in between. */
  function Enter(id: ChallengeId, email: nat, ip: nat, code: nat): seq<DeskStep> {
    [Begin(id, email, ip)] + [Count(id)] + [Look(id)] + [Draw(id, code, true)]
  }

  function Entered(d: Desk, id: ChallengeId, email: nat, ip: nat, code: nat): Desk {
    d.(flights := d.flights[id := Flight(email, ip, d.clock, Stamped(code, d.clock))], used := d.used + {id})
  }

  /** The same, this far only. */
  function Along(d: Desk, id: ChallengeId, email: nat, ip: nat, progress: Progress): Desk {
    d.(flights := d.flights[id := Flight(email, ip, d.clock, progress)], used := d.used + {id})
  }

  lemma Begins(d: Desk, id: ChallengeId, email: nat, ip: nat, l: Limits)
    requires id !in d.used && id !in d.flights && l.slack >= 0 && HasRoom(d.rows, ip, d.clock, l)
    ensures Leads(d, [Begin(id, email, ip)] + [Count(id)], ip, l, Along(d, id, email, ip, Counted), |Uncreated(d, ip)|)
  {
    var d1 := Along(d, id, email, ip, Begun);
    OneStep(d, Begin(id, email, ip), ip, l);
    OneStep(d1, Count(id), ip, l);
    assert Uncreated(d1, ip) == Uncreated(d, ip);
    assert DoStep(d1, Count(id), l).flights == Along(d, id, email, ip, Counted).flights;
    Goes(d, [Begin(id, email, ip)], d1, 0, [Count(id)], Along(d, id, email, ip, Counted), |Uncreated(d, ip)|, ip, l);
  }

  lemma Enters(d: Desk, id: ChallengeId, email: nat, ip: nat, code: nat, l: Limits)
    requires id !in d.used && id !in d.flights && l.slack >= 0
    requires HasRoom(d.rows, ip, d.clock, l) && HasCooled(d.rows, email, d.clock, l)
    ensures Leads(d, Enter(id, email, ip, code), ip, l, Entered(d, id, email, ip, code), |Uncreated(d, ip)|)
  {
    var d2, d3 := Along(d, id, email, ip, Counted), Along(d, id, email, ip, Looked);
    var d4, n := Entered(d, id, email, ip, code), |Uncreated(d, ip)|;
    Begins(d, id, email, ip, l);
    OneStep(d2, Look(id), ip, l);
    assert DoStep(d2, Look(id), l).flights == d3.flights;
    OneStep(d3, Draw(id, code, true), ip, l);
    assert DoStep(d3, Draw(id, code, true), l).flights == d4.flights;
    Goes(d, [Begin(id, email, ip)] + [Count(id)], d2, n, [Look(id)], d3, 0, ip, l);
    Goes(d, [Begin(id, email, ip)] + [Count(id)] + [Look(id)], d3, n, [Draw(id, code, true)], d4, 0, ip, l);
  }

  /** With nothing at all in between, the steps of a request are the creation of its challenge. */
  lemma UndisturbedRequest(d: Desk, id: ChallengeId, email: nat, ip: nat, code: nat, l: Limits)
    requires id !in d.used && id !in d.flights && l.slack >= 0
    requires HasRoom(d.rows, ip, d.clock, l) && HasCooled(d.rows, email, d.clock, l)
    ensures Leads(d, Enter(id, email, ip, code) + [Create(id)], ip, l,
                  Undisturbed(d, id, email, ip, code, d.clock, true, l), |Uncreated(d, ip)|)
  {
    var d1 := Entered(d, id, email, ip, code);
    var d2 := Undisturbed(d, id, email, ip, code, d.clock, true, l);
    Enters(d, id, email, ip, code, l);
    OneStep(d1, Create(id), ip, l);
    assert d1.flights - {id} == d.flights;
    assert DoStep(d1, Create(id), l) == d2;
    Goes(d, Enter(id, email, ip, code), d1, |Uncreated(d, ip)|, [Create(id)], d2, 0, ip, l);
  }

  // ---------------------------------------------------------------- a crowd at one address

  /**
   * The first n of m requests of address 0 have created their challenges, the others are about to. Each is for an
   * e-mail of its own; the first `early` of them were made at time 0, the others now.
   */
  ghost predicate Crowd(d: Desk, n: nat, m: nat, early: nat, l: Limits) {
    && early <= n <= m
    && (early > 0 ==> d.clock == l.window)
    && (forall i: nat :: i in d.used <==> i < m)
    && (forall i: nat :: i in d.rows <==> i < n)
    && (forall i: nat :: i in d.flights <==> n <= i < m)
    && (forall i | i in d.rows ::
          d.rows[i].email == i && d.rows[i].ip == 0 && d.rows[i].createdAt == if i < early then 0 else d.clock)
    && (forall i | i in d.flights :: d.flights[i] == Flight(i, 0, d.clock, Stamped(0, d.clock)))
  }

  function Range(lo: nat, hi: nat): (r: set<nat>)
    requires lo <= hi
    ensures |r| == hi - lo && forall i: nat :: i in r <==> lo <= i < hi
  {
    if lo == hi then {} else Range(lo, hi - 1) + {hi - 1}
  }

  lemma CrowdHasRoom(d: Desk, n: nat, m: nat, early: nat, l: Limits)
    requires Crowd(d, n, m, early, l) && l.window > 0 && n - early < l.ipMax
    ensures HasRoom(d.rows, 0, d.clock, l) && HasCooled(d.rows, m, d.clock, l) && |Uncreated(d, 0)| == m - n
  {
    assert Recent(Stamps(d.rows), 0, d.clock - l.window) == Range(early, n);
    assert Uncreated(d, 0) == Range(n, m);
  }

  lemma CrowdGrows(d: Desk, n: nat, m: nat, early: nat, l: Limits) returns (steps: seq<DeskStep>, end: Desk)
    requires Crowd(d, n, m, early, l) && l.window > 0 && l.slack >= 0 && n - early < l.ipMax
    ensures Leads(d, steps, 0, l, end, m - n)
    ensures Crowd(end, n, m + 1, early, l) && end.clock == d.clock
  {
    CrowdHasRoom(d, n, m, early, l);
    Enters(d, m, m, 0, 0, l);
    steps, end := Enter(m, m, 0, 0), Entered(d, m, m, 0, 0);
  }

  lemma CrowdLands(d: Desk, n: nat, m: nat, early: nat, l: Limits) returns (steps: seq<DeskStep>, end: Desk)
    requires Crowd(d, n, m, early, l) && n < m
    ensures Leads(d, steps, 0, l, end, 0)
    ensures Crowd(end, n + 1, m, early, l) && end.clock == d.clock
  {
    OneStep(d, Create(n), 0, l);
    steps, end := [Create(n)], DoStep(d, Create(n), l);
  }

  /** More requests enter, at the same time. */
  lemma {:induction false} ManyEnter(d: Desk, n: nat, m: nat, count: nat, early: nat, l: Limits)
    returns (steps: seq<DeskStep>, end: Desk)
    requires Crowd(d, n, m, early, l) && l.window > 0 && l.slack >= 0 && n - early < l.ipMax
    ensures Leads(d, steps, 0, l, end, if count == 0 then 0 else m + count - 1 - n)
    ensures Crowd(end, n, m + count, early, l) && end.clock == d.clock
    decreases count
  {
    if count == 0 {
      NoSteps(d, 0, l);
      steps, end := [], d;
    } else {
      var first, d1 := CrowdGrows(d, n, m, early, l);
      var rest;
      rest, end := ManyEnter(d1, n, m + 1, count - 1, early, l);
      Goes(d, first, d1, m - n, rest, end, if count == 1 then 0 else m + count - 1 - n, 0, l);
      steps := first + rest;
    }
  }

  /** All that have entered create their challenges. */
  lemma {:induction false} ManyLand(d: Desk, n: nat, count: nat, early: nat, l: Limits)
    returns (steps: seq<DeskStep>, end: Desk)
    requires Crowd(d, n, n + count, early, l)
    ensures Leads(d, steps, 0, l, end, 0)
    ensures Crowd(end, n + count, n + count, early, l) && end.clock == d.clock
    decreases count
  {
    if count == 0 {
      NoSteps(d, 0, l);
      steps, end := [], d;
    } else {
      var first, d1 := CrowdLands(d, n, n + count, early, l);
      var rest;
      rest, end := ManyLand(d1, n + 1, count - 1, early, l);
      Goes(d, first, d1, 0, rest, end, 0, 0, l);
      steps := first + rest;
    }
  }

  lemma OneRequest(d: Desk, n: nat, early: nat, l: Limits) returns (steps: seq<DeskStep>, end: Desk)
    requires Crowd(d, n, n, early, l) && l.window > 0 && l.slack >= 0 && n - early < l.ipMax
    ensures Leads(d, steps, 0, l, end, 0)
    ensures Crowd(end, n + 1, n + 1, early, l) && end.clock == d.clock
  {
    var a, d1 := ManyEnter(d, n, n, 1, early, l);
    var b;
    b, end := ManyLand(d1, n, 1, early, l);
    Goes(d, a, d1, 0, b, end, 0, 0, l);
    steps := a + b;
  }

  /** One after the other. */
  lemma {:induction false} ManyInTurn(d: Desk, n: nat, count: nat, early: nat, l: Limits)
    returns (steps: seq<DeskStep>, end: Desk)
    requires Crowd(d, n, n, early, l) && l.window > 0 && l.slack >= 0 && n - early + count <= l.ipMax
    ensures Leads(d, steps, 0, l, end, 0)
    ensures Crowd(end, n + count, n + count, early, l) && end.clock == d.clock
    decreases count
  {
    if count == 0 {
      NoSteps(d, 0, l);
      steps, end := [], d;
    } else {
      var first, d1 := OneRequest(d, n, early, l);
      var rest;
      rest, end := ManyInTurn(d1, n + 1, count - 1, early, l);
      Goes(d, first, d1, 0, rest, end, 0, 0, l);
      steps := first + rest;
    }
  }

  /** All but the last place are taken in turn, and 1 + overlap requests share the last one. */
  lemma Rush(d: Desk, n: nat, overlap: nat, l: Limits) returns (steps: seq<DeskStep>, end: Desk)
    requires Crowd(d, n, n, n, l) && l.window > 0 && l.slack >= 0 && l.ipMax >= 1
    ensures Leads(d, steps, 0, l, end, overlap)
    ensures Crowd(end, n + l.ipMax + overlap, n + l.ipMax + overlap, n, l) && end.clock == d.clock
  {
    var m := n + l.ipMax - 1;
    var a, d1 := ManyInTurn(d, n, l.ipMax - 1, n, l);
    var b, d2 := ManyEnter(d1, m, m, overlap + 1, n, l);
    var c;
    c, end := ManyLand(d2, m, overlap + 1, n, l);
    steps := GoesOn(d, a, d1, 0, b, d2, overlap, c, end, 0, l);
  }

  lemma GoesOn(d: Desk, a: seq<DeskStep>, d1: Desk, k1: nat, b: seq<DeskStep>, d2: Desk, k2: nat, c: seq<DeskStep>,
               end: Desk, k3: nat, l: Limits) returns (steps: seq<DeskStep>)
    requires Leads(d, a, 0, l, d1, k1) && Leads(d1, b, 0, l, d2, k2) && Leads(d2, c, 0, l, end, k3)
    ensures Leads(d, steps, 0, l, end, Max(Max(k1, k2), k3))
  {
    Goes(d, a, d1, k1, b, d2, k2, 0, l);
    Goes(d, a + b, d2, Max(k1, k2), c, end, k3, 0, l);
    steps := a + b + c;
  }

  lemma CrowdFromNothing(l: Limits)
    ensures Crowd(Opened(0), 0, 0, 0, l)
  {
  }

  /**
   * The bound on windows is met: for every limit and every overlap some run with that overlap puts ipMax + overlap
   * challenges of one address into one half-open window.
   */
  lemma OverlapIsAttained(l: Limits, overlap: nat) returns (steps: seq<DeskStep>, d: Desk)
    requires l.ipMax >= 1 && l.window > 0 && l.slack >= 0
    ensures CanSteps(Opened(0), steps, l) && d == DoSteps(Opened(0), steps, l)
    ensures MostOverlap(Opened(0), steps, 0, l) == overlap
    ensures |InWindow(Stamps(d.rows), 0, -1, l.window)| == l.ipMax + overlap
  {
    CrowdFromNothing(l);
    steps, d := Rush(Opened(0), 0, overlap, l);
    assert InWindow(Stamps(d.rows), 0, -1, l.window) == Range(0, l.ipMax + overlap);
  }

  lemma CrowdWaits(d: Desk, n: nat, l: Limits) returns (end: Desk)
    requires Crowd(d, n, n, 0, l) && d.clock == 0 && l.window > 0
    ensures Leads(d, [Pass(l.window)], 0, l, end, 0)
    ensures Crowd(end, n, n, n, l) && end.clock == l.window
  {
    OneStep(d, Pass(l.window), 0, l);
    end := DoStep(d, Pass(l.window), l);
  }

  /** And some run fills a closed window with twice as many: a challenge exactly one window old no longer counts. */
  lemma ClosedWindowMayHoldTwice(l: Limits, overlap: nat) returns (steps: seq<DeskStep>, d: Desk)
    requires l.ipMax >= 1 && l.window > 0 && l.slack >= 0
    ensures CanSteps(Opened(0), steps, l) && d == DoSteps(Opened(0), steps, l)
    ensures MostOverlap(Opened(0), steps, 0, l) == overlap
    ensures |InClosedWindow(Stamps(d.rows), 0, 0, l.window)| == 2 * (l.ipMax + overlap)
  {
    var n := l.ipMax + overlap;
    CrowdFromNothing(l);
    var a, d1 := Rush(Opened(0), 0, overlap, l);
    var d2 := CrowdWaits(d1, n, l);
    var c;
    c, d := Rush(d2, n, overlap, l);
    steps := GoesOn(Opened(0), a, d1, overlap, [Pass(l.window)], d2, 0, c, d, overlap, l);
    BothEndsCount(d, n, l);
  }

  lemma BothEndsCount(d: Desk, n: nat, l: Limits)
    requires Crowd(d, n + n, n + n, n, l) && d.clock == l.window > 0
    ensures |InClosedWindow(Stamps(d.rows), 0, 0, l.window)| == n + n
  {
    assert InClosedWindow(Stamps(d.rows), 0, 0, l.window) == Range(0, n + n);
  }

  // ---------------------------------------------------------------- two codes at once

  /** Two requests for one e-mail from two addresses, each checked before the other creates its challenge. */
  function TwoAtOnce(): seq<DeskStep> {
    Enter(0, 7, 0, 0) + Enter(1, 7, 1, 0) + ([Create(0)] + [Create(1)])
  }

  lemma TwoEnter(l: Limits)
    requires l.ipMax >= 1 && l.slack >= 0
    ensures Leads(Opened(0), Enter(0, 7, 0, 0) + Enter(1, 7, 1, 0), 0, l,
                  Entered(Entered(Opened(0), 0, 7, 0, 0), 1, 7, 1, 0), 0)
  {
    var d0 := Opened(0);
    var d1 := Entered(d0, 0, 7, 0, 0);
    assert Recent(Stamps(d0.rows), 0, 0 - l.window) == {} && Recent(Stamps(d0.rows), 1, 0 - l.window) == {};
    assert Uncreated(d0, 0) == {};
    Enters(d0, 0, 7, 0, 0, l);
    Enters(d1, 1, 7, 1, 0, l);
    Goes(d0, Enter(0, 7, 0, 0), d1, 0, Enter(1, 7, 1, 0), Entered(d1, 1, 7, 1, 0), 0, 0, l);
  }

  /** From an empty table: an overlap leaves two codes of one e-mail closer together than the cooldown. */
  lemma OverlapBreaksSpacing(l: Limits) returns (d: Desk)
    requires l.ipMax >= 1 && l.slack >= 0 && l.cooldown > 0
    ensures CanSteps(Opened(0), TwoAtOnce(), l) && d == DoSteps(Opened(0), TwoAtOnce(), l)
    ensures !SpacedFor(Stamps(d.rows), 7, l) && !LooksAlone(Opened(0), TwoAtOnce(), 7, l)
  {
    TwoEnter(l);
    var d2 := Entered(Entered(Opened(0), 0, 7, 0, 0), 1, 7, 1, 0);
    var d3 := DoStep(d2, Create(0), l);
    d := DoStep(d3, Create(1), l);
    OneStep(d2, Create(0), 0, l);
    OneStep(d3, Create(1), 0, l);
    Goes(d2, [Create(0)], d3, 0, [Create(1)], d, 0, 0, l);
    Goes(Opened(0), Enter(0, 7, 0, 0) + Enter(1, 7, 1, 0), d2, 0, [Create(0)] + [Create(1)], d, 0, 0, l);
    var stamps := Stamps(d.rows);
    assert stamps[0] == Stamp(7, 0, 0) && stamps[1] == Stamp(7, 1, 0);
    if LooksAlone(Opened(0), TwoAtOnce(), 7, l) {
      StoredCodesAreSpaced(0, TwoAtOnce(), l, 7);
    }
  }
}

/** The order in which one workflow run enters its stages: a small automaton, and the language it recognises. */
module StageOrder {
  import opened Common
  import opened Envelopes

  /** Where a run is. `rank` orders the stages before the first build; i counts the corrections made so far. */
  datatype Phase =
    | Before(rank: nat)
    | Building(i: nat)
    | Testing(i: nat)
    | Launching(i: nat)
    | Reviewing(i: nat)
    | Judging(i: nat)
    | Fixing(i: nat)
    | Delivered(i: nat)

  function Advance(p: Phase, s: Stage): Option<Phase> {
    match p
    case Before(k) =>
      (match s
       case Product => if k == 0 then Some(Before(0)) else None
       case Planner => if k < 1 then Some(Before(1)) else None
       case Reader => if k < 2 then Some(Before(2)) else None
       case Design => if k < 3 then Some(Before(3)) else None
       case Coder => if k < 4 then Some(Before(4)) else None
       case Build => Some(Building(0))
       case _ => None)
    case Building(i) => if s == Test then Some(Testing(i)) else None
    case Testing(i) => if s == Test then Some(Launching(i)) else if s == Review then Some(Reviewing(i)) else None
    case Launching(i) => if s == Review then Some(Reviewing(i)) else None
    case Reviewing(i) => if s == Acceptance then Some(Judging(i)) else None
    case Judging(i) => if s == Coder then Some(Fixing(i)) else if s == Delivery then Some(Delivered(i)) else None
    case Fixing(i) => if s == Build then Some(Building(i + 1)) else None
    case Delivered(_) => None
  }

  function PhaseOf(trace: seq<Stage>): Option<Phase> {
    if trace == [] then Some(Before(0))
    else
      var p := PhaseOf(trace[..|trace| - 1]);
      if p.Some? then Advance(p.value, trace[|trace| - 1]) else None
  }

  lemma PhaseSnoc(trace: seq<Stage>, s: Stage)
    ensures PhaseOf(trace + [s]) == if PhaseOf(trace).Some? then Advance(PhaseOf(trace).value, s) else None
  {
    assert (trace + [s])[..|trace|] == trace;
  }

  /** The same, as a relation: one phase before the first stage and one after each. */
  ghost predicate Follows(trace: seq<Stage>, phases: seq<Phase>) {
    && |phases| == |trace| + 1
    && phases[0] == Before(0)
    && forall i {:trigger trace[i]} | 0 <= i < |trace| :: Advance(phases[i], trace[i]) == Some(phases[i + 1])
  }

  ghost predicate Reached(trace: seq<Stage>, p: Phase) {
    exists phases: seq<Phase> :: Follows(trace, phases) && phases[|trace|] == p
  }

  lemma FollowsPrefix(trace: seq<Stage>, phases: seq<Phase>)
    requires Follows(trace, phases) && trace != []
    ensures Follows(trace[..|trace| - 1], phases[..|trace|])
  {
    var before := trace[..|trace| - 1];
    forall i | 0 <= i < |before| ensures Advance(phases[i], before[i]) == Some(phases[i + 1]) {
      assert before[i] == trace[i];
    }
  }

  lemma {:induction false} FollowsPhase(trace: seq<Stage>, phases: seq<Phase>)
    requires Follows(trace, phases)
    ensures PhaseOf(trace) == Some(phases[|trace|])
  {
    if trace != [] {
      FollowsPrefix(trace, phases);
      FollowsPhase(trace[..|trace| - 1], phases[..|trace|]);
      assert Advance(phases[|trace| - 1], trace[|trace| - 1]) == Some(phases[|trace|]);
    }
  }

  lemma ReachedSnoc(trace: seq<Stage>, p: Phase, s: Stage)
    requires Reached(trace, p) && Advance(p, s).Some?
    ensures Reached(trace + [s], Advance(p, s).value)
  {
    var phases :| Follows(trace, phases) && phases[|trace|] == p;
    var longer := phases + [Advance(p, s).value];
    forall i | 0 <= i < |trace + [s]| ensures Advance(longer[i], (trace + [s])[i]) == Some(longer[i + 1]) {
      if i < |trace| { assert (trace + [s])[i] == trace[i]; }
    }
    assert Follows(trace + [s], longer);
  }

  lemma ReachedIsPhase(trace: seq<Stage>, p: Phase)
    requires Reached(trace, p)
    ensures PhaseOf(trace) == Some(p)
  {
    var phases :| Follows(trace, phases) && phases[|trace|] == p;
    FollowsPhase(trace, phases);
  }

  lemma NothingReached()
    ensures Reached([], Before(0))
  {
    assert Follows([], [Before(0)]);
  }

  /** The phase reached, and the number of PRODUCT stages on the way. */
  ghost predicate Entered(trace: seq<Stage>, p: Phase, products: nat) {
    exists phases: seq<Phase> ::
      Follows(trace, phases) && phases[|trace|] == p && products == multiset(trace)[Product]
  }

  lemma NothingEntered()
    ensures Entered([], Before(0), 0)
  {
    assert Follows([], [Before(0)]);
  }

  lemma EnteredSnoc(trace: seq<Stage>, p: Phase, products: nat, s: Stage)
    requires Entered(trace, p, products) && Advance(p, s).Some?
    ensures Entered(trace + [s], Advance(p, s).value, products + if s == Product then 1 else 0)
  {
    ReachedSnoc(trace, p, s);
  }

  lemma EnteredFacts(trace: seq<Stage>, p: Phase, products: nat)
    requires Entered(trace, p, products)
    ensures PhaseOf(trace) == Some(p) && products == multiset(trace)[Product]
  {
    ReachedIsPhase(trace, p);
  }

  /** Corrections begun so far. */
  function Corrections(p: Phase): nat {
    match p
    case Before(_) => 0
    case Fixing(i) => i + 1
    case Building(i) => i
    case Testing(i) => i
    case Launching(i) => i
    case Reviewing(i) => i
    case Judging(i) => i
    case Delivered(i) => i
  }

  // ---------------------------------------------------------------- the language, written out

  /** The choices a complete run makes; `corrected` and `last` say for each round whether a run command was entered. */
  datatype Script = Script(
    products: nat, planner: bool, reader: bool, design: bool, coder: bool, corrected: seq<bool>, last: bool)

  function Opt(b: bool, s: Stage): seq<Stage> {
    if b then [s] else []
  }

  function Repeat(s: Stage, n: nat): seq<Stage> {
    if n == 0 then [] else Repeat(s, n - 1) + [s]
  }

  function Head(w: Script): seq<Stage> {
    Repeat(Product, w.products) + Opt(w.planner, Planner) + Opt(w.reader, Reader) + Opt(w.design, Design)
    + Opt(w.coder, Coder)
  }

  function Round(run: bool): seq<Stage> {
    [Build, Test] + Opt(run, Test) + [Review, Acceptance]
  }

  function Correction(run: bool): seq<Stage> {
    Round(run) + [Coder]
  }

  function Corrected(rounds: seq<bool>): seq<Stage> {
    if rounds == [] then [] else Corrected(rounds[..|rounds| - 1]) + Correction(rounds[|rounds| - 1])
  }

  /** PRODUCT* PLANNER? READER? DESIGN? CODER? (R CODER)^i R DELIVERY with R = BUILD TEST TEST? REVIEW ACCEPTANCE. */
  function Spell(w: Script): seq<Stage> {
    Head(w) + Corrected(w.corrected) + Round(w.last) + [Delivery]
  }

  lemma CorrectedSnoc(rounds: seq<bool>, run: bool)
    ensures Corrected(rounds + [run]) == Corrected(rounds) + Correction(run)
  {
    assert (rounds + [run])[..|rounds|] == rounds;
  }

  // ---------------------------------------------------------------- accepted traces are prefixes of the language

  predicate Fits(w: Script, rank: nat) {
    (rank < 1 ==> !w.planner) && (rank < 2 ==> !w.reader) && (rank < 3 ==> !w.design) && (rank < 4 ==> !w.coder)
  }

  function Partial(p: Phase, run: bool): seq<Stage> {
    match p
    case Before(_) => []
    case Building(_) => [Build]
    case Testing(_) => [Build, Test]
    case Launching(_) => [Build, Test, Test]
    case Reviewing(_) => [Build, Test] + Opt(run, Test) + [Review]
    case Judging(_) => Round(run)
    case Fixing(_) => []
    case Delivered(_) => Round(run) + [Delivery]
  }

  /** The script read so far: complete rounds in `corrected`, the open round in `last`. */
  predicate Reads(trace: seq<Stage>, p: Phase, w: Script) {
    && trace == Head(w) + Corrected(w.corrected) + Partial(p, w.last)
    && |w.corrected| == Corrections(p)
    && (p.Before? ==> Fits(w, p.rank))
    && (p.Testing? ==> !w.last) && (p.Launching? ==> w.last)
  }

  /** Reading one more stage. */
  function Extend(w: Script, p: Phase, s: Stage): Script {
    match p
    case Before(_) =>
      (match s
       case Product => w.(products := w.products + 1)
       case Planner => w.(planner := true)
       case Reader => w.(reader := true)
       case Design => w.(design := true)
       case Coder => w.(coder := true)
       case _ => w)
    case Building(_) => w.(last := false)
    case Testing(_) => if s == Test then w.(last := true) else w
    case Judging(_) => if s == Coder then w.(corrected := w.corrected + [w.last]) else w
    case _ => w
  }

  lemma HeadExtends(w: Script, rank: nat, s: Stage)
    requires Fits(w, rank) && Advance(Before(rank), s).Some? && s != Build
    ensures Head(Extend(w, Before(rank), s)) == Head(w) + [s]
    ensures Fits(Extend(w, Before(rank), s), Advance(Before(rank), s).value.rank)
  {
  }

  lemma PartialExtends(p: Phase, w: Script, s: Stage)
    requires Advance(p, s).Some? && (p.Before? ==> s == Build) && !(p.Judging? && s == Coder)
    requires (p.Testing? ==> !w.last) && (p.Launching? ==> w.last)
    ensures Partial(Advance(p, s).value, Extend(w, p, s).last) == Partial(p, w.last) + [s]
  {
  }

  lemma Regroup(a: seq<Stage>, b: seq<Stage>, c: seq<Stage>, d: seq<Stage>)
    ensures a + b + c + d == a + b + (c + d)
    ensures a + b + c + d == a + (b + (c + d)) + []
    ensures a + [] + [] + d == (a + d) + [] + []
    ensures a + (b + c) == a + b + c
  {
  }

  lemma HeadReads(trace: seq<Stage>, rank: nat, w: Script, s: Stage)
    requires Reads(trace, Before(rank), w) && Advance(Before(rank), s).Some? && s != Build
    ensures Reads(trace + [s], Advance(Before(rank), s).value, Extend(w, Before(rank), s))
  {
    HeadExtends(w, rank, s);
    Regroup(Head(w), [], [], [s]);
  }

  lemma CorrectionReads(trace: seq<Stage>, i: nat, w: Script)
    requires Reads(trace, Judging(i), w)
    ensures Reads(trace + [Coder], Fixing(i), Extend(w, Judging(i), Coder))
  {
    var head, corrected, round := Head(w), Corrected(w.corrected), Round(w.last);
    var v := Extend(w, Judging(i), Coder);
    CorrectedSnoc(w.corrected, w.last);
    Regroup(head, corrected, round, [Coder]);
    assert Head(v) == head && Partial(Fixing(i), v.last) == [];
  }

  lemma TailReads(trace: seq<Stage>, p: Phase, w: Script, s: Stage)
    requires Reads(trace, p, w) && Advance(p, s).Some? && (p.Before? ==> s == Build) && !(p.Judging? && s == Coder)
    ensures Reads(trace + [s], Advance(p, s).value, Extend(w, p, s))
  {
    PartialExtends(p, w, s);
    Regroup(Head(w), Corrected(w.corrected), Partial(p, w.last), [s]);
    assert Head(Extend(w, p, s)) == Head(w);
  }

  lemma ExtendReads(trace: seq<Stage>, p: Phase, w: Script, s: Stage)
    requires Reads(trace, p, w) && Advance(p, s).Some?
    ensures Reads(trace + [s], Advance(p, s).value, Extend(w, p, s))
  {
    if p.Before? && s != Build {
      HeadReads(trace, p.rank, w, s);
    } else if p.Judging? && s == Coder {
      CorrectionReads(trace, p.i, w);
    } else {
      TailReads(trace, p, w, s);
    }
  }

  lemma {:induction false} AcceptedReads(trace: seq<Stage>) returns (w: Script)
    requires PhaseOf(trace).Some?
    ensures Reads(trace, PhaseOf(trace).value, w)
  {
    if trace == [] {
      w := Script(0, false, false, false, false, [], false);
    } else {
      var before := trace[..|trace| - 1];
      var v := AcceptedReads(before);
      ExtendReads(before, PhaseOf(before).value, v, trace[|trace| - 1]);
      assert before + [trace[|trace| - 1]] == trace;
      w := Extend(v, PhaseOf(before).value, trace[|trace| - 1]);
    }
  }

  /** The trace is a prefix of a complete run with at most n corrections. */
  ghost predicate WithinLanguage(trace: seq<Stage>, n: nat) {
    exists w: Script :: |w.corrected| <= n && trace <= Spell(w)
  }

  lemma PartialIsPrefix(p: Phase, run: bool)
    requires (p.Testing? ==> !run) && (p.Launching? ==> run)
    ensures Partial(p, run) <= Round(run) + [Delivery]
  {
  }

  lemma PrefixAfter(front: seq<Stage>, a: seq<Stage>, b: seq<Stage>)
    requires a <= b
    ensures front + a <= front + b
  {
  }

  lemma AcceptedIsWithin(trace: seq<Stage>)
    requires PhaseOf(trace).Some?
    ensures WithinLanguage(trace, Corrections(PhaseOf(trace).value))
  {
    var w := AcceptedReads(trace);
    var p := PhaseOf(trace).value;
    var front, round := Head(w) + Corrected(w.corrected), Round(w.last);
    PartialIsPrefix(p, w.last);
    PrefixAfter(front, Partial(p, w.last), round + [Delivery]);
    Regroup(Head(w), Corrected(w.corrected), round, [Delivery]);
    assert trace <= Spell(w);
  }

  // ---------------------------------------------------------------- and conversely

  lemma {:induction false} PrefixIsAccepted(a: seq<Stage>, b: seq<Stage>)
    requires a <= b && PhaseOf(b).Some?
    ensures PhaseOf(a).Some? && Corrections(PhaseOf(a).value) <= Corrections(PhaseOf(b).value)
    decreases |b|
  {
    if a != b {
      PrefixIsAccepted(a, b[..|b| - 1]);
    }
  }

  lemma {:induction false} ProductsReached(n: nat)
    ensures Reached(Repeat(Product, n), Before(0))
  {
    if n == 0 {
      NothingReached();
    } else {
      ProductsReached(n - 1);
      ReachedSnoc(Repeat(Product, n - 1), Before(0), Product);
    }
  }

  /** Before the first build, past no stage of a higher rank. */
  ghost predicate InHead(trace: seq<Stage>, rank: nat) {
    exists k: nat :: k <= rank && Reached(trace, Before(k))
  }

  lemma OptReached(trace: seq<Stage>, b: bool, s: Stage, rank: nat)
    requires InHead(trace, rank) && rank < 4 && s == [Planner, Reader, Design, Coder][rank]
    ensures InHead(trace + Opt(b, s), rank + 1)
  {
    var k: nat :| k <= rank && Reached(trace, Before(k));
    if b {
      ReachedSnoc(trace, Before(k), s);
    } else {
      assert trace + [] == trace;
    }
  }

  lemma HeadAccepted(w: Script)
    ensures PhaseOf(Head(w)).Some? && PhaseOf(Head(w)).value.Before?
  {
    var t0 := Repeat(Product, w.products);
    ProductsReached(w.products);
    OptReached(t0, w.planner, Planner, 0);
    var t1 := t0 + Opt(w.planner, Planner);
    OptReached(t1, w.reader, Reader, 1);
    var t2 := t1 + Opt(w.reader, Reader);
    OptReached(t2, w.design, Design, 2);
    var t3 := t2 + Opt(w.design, Design);
    OptReached(t3, w.coder, Coder, 3);
    HeadIsBefore(t3 + Opt(w.coder, Coder));
  }

  lemma HeadIsBefore(trace: seq<Stage>)
    requires InHead(trace, 4)
    ensures PhaseOf(trace).Some? && PhaseOf(trace).value.Before?
  {
    var k: nat :| k <= 4 && Reached(trace, Before(k));
    ReachedIsPhase(trace, Before(k));
  }

  /** A round may start after the head or after a correction. */
  lemma RoundAccepted(trace: seq<Stage>, run: bool, i: nat)
    requires PhaseOf(trace).Some? && Advance(PhaseOf(trace).value, Build) == Some(Building(i))
    ensures PhaseOf(trace + Round(run)) == Some(Judging(i))
  {
    PhaseSnoc(trace, Build);
    PhaseSnoc(trace + [Build], Test);
    var t := trace + [Build] + [Test];
    if run { PhaseSnoc(t, Test); }
    var u := t + Opt(run, Test);
    assert run || u == t;
    PhaseSnoc(u, Review);
    PhaseSnoc(u + [Review], Acceptance);
    assert trace + Round(run) == u + [Review] + [Acceptance];
  }

  lemma CorrectionAccepted(trace: seq<Stage>, run: bool, i: nat)
    requires PhaseOf(trace).Some? && Advance(PhaseOf(trace).value, Build) == Some(Building(i))
    ensures PhaseOf(trace + Correction(run)) == Some(Fixing(i))
  {
    RoundAccepted(trace, run, i);
    PhaseSnoc(trace + Round(run), Coder);
    Regroup(trace, Round(run), [Coder], []);
  }

  lemma {:induction false} CorrectedAccepted(head: seq<Stage>, rounds: seq<bool>)
    requires PhaseOf(head).Some? && PhaseOf(head).value.Before?
    ensures PhaseOf(head + Corrected(rounds)).Some?
    ensures Advance(PhaseOf(head + Corrected(rounds)).value, Build) == Some(Building(|rounds|))
    decreases |rounds|
  {
    if rounds == [] {
      assert head + Corrected(rounds) == head;
    } else {
      var n := |rounds| - 1;
      CorrectedAccepted(head, rounds[..n]);
      CorrectionAccepted(head + Corrected(rounds[..n]), rounds[n], n);
      Regroup(head, Corrected(rounds[..n]), Correction(rounds[n]), []);
    }
  }

  lemma SpellAccepted(w: Script)
    ensures PhaseOf(Spell(w)) == Some(Delivered(|w.corrected|))
  {
    HeadAccepted(w);
    CorrectedAccepted(Head(w), w.corrected);
    var t := Head(w) + Corrected(w.corrected);
    RoundAccepted(t, w.last, |w.corrected|);
    PhaseSnoc(t + Round(w.last), Delivery);
  }

  /** A trace is accepted with at most n corrections if and only if it is a prefix of the written-out language. */
  lemma AutomatonIsLanguage(trace: seq<Stage>, n: nat)
    ensures PhaseOf(trace).Some? && Corrections(PhaseOf(trace).value) <= n <==> WithinLanguage(trace, n)
  {
    if PhaseOf(trace).Some? && Corrections(PhaseOf(trace).value) <= n {
      AcceptedIsWithin(trace);
    }
    if WithinLanguage(trace, n) {
      var w: Script :| |w.corrected| <= n && trace <= Spell(w);
      SpellAccepted(w);
      PrefixIsAccepted(trace, Spell(w));
    }
  }
}

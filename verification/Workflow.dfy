/**
 * One task's workflow (class WorkflowEngine of app/workflow.py): gated agent calls, shell commands with fix loops,
 * cancellation at any moment, and resumption from stored artifacts. Agents, the shell and git are oracles: any call
 * may fail, and may answer anything. The worktree is an abstract value that only code changes and shell runs alter.
 */
module Workflow {
  import opened Common
  import opened Envelopes
  import opened Tables
  import opened StageOrder

  type Tree = nat
  type Command = nat

  /** What `git diff` prints for a worktree; the worktree itself stands for the text. */
  datatype Diff = DiffOf(tree: Tree)

  /** The text of a design: only whether it is empty matters here. */
  datatype Text = Blank | Words(content: nat)

  datatype ProductSpec = ProductSpec(ready: bool, text: nat)
  datatype Assessment = Assessment(approved: bool, score: int)
  datatype PlanOutput = PlanOutput(build: Option<Command>, test: Option<Command>, run: Option<Command>)
  datatype ReviewOutput = ReviewOutput(verdict: string, findings: nat)
  datatype AcceptanceOutput = AcceptanceOutput(accepted: bool, score: int, failedCriteria: nat, instructions: nat)

  datatype Error = TaskCancelledError | WorkflowError

  datatype Result<+T> = Ok(value: T) | Raised(error: Error) {
    predicate IsFailure() { Raised? }
    function PropagateFailure<U>(): Result<U> requires Raised? { Raised(error) }
    function Extract(): T requires Ok? { value }
  }

  /** An agent call without an answer raises. */
  function Answered<T>(answer: Option<T>): Result<T> {
    if answer.Some? then Ok(answer.value) else Raised(WorkflowError)
  }

  datatype Limits = Limits(maxProduct: int, maxFix: int, maxAcceptance: int, threshold: int)

  datatype TaskOptions = TaskOptions(
    build: Option<Command>, test: Option<Command>, includeLocal: bool, sync: bool, autoApply: bool, autoCommit: bool)

  // ---------------------------------------------------------------- artifacts

  /**
   * The stored artifacts. Two labels say what the source records in the event that goes with the artifact: whether an
   * assessment ended the alignment loop, and whether a code change is the first one or a correction.
   */
  datatype Artifact =
    | WorktreeArtifact | SnapshotArtifact
    | SpecArtifact(spec: ProductSpec) | AssessmentArtifact(assessment: Assessment, aligned: bool)
    | PlanArtifact(plan: PlanOutput) | ReadingArtifact | DesignArtifact(text: Text) | CodeArtifact(first: bool)
    | DiffArtifact(diff: Diff) | ValidationArtifact | ReviewArtifact(review: ReviewOutput)
    | AcceptanceArtifact(acceptance: AcceptanceOutput) | SyncArtifact | DeliveryArtifact | CommitArtifact

  /**
   * The last content of every kind, as the dictionary built from the artifact list holds it. `settled` is a history
   * value: an alignment loop has succeeded.
   */
  datatype Shelf = Shelf(
    worktree: bool, spec: Option<ProductSpec>, assessment: Option<Assessment>, settled: bool,
    plan: Option<PlanOutput>, reading: bool, design: Text, code: bool, verdicts: Verdicts, synced: bool)

  /** What the last acceptance round stored. */
  datatype Verdicts = Verdicts(diff: Option<Diff>, review: Option<ReviewOutput>, acceptance: Option<AcceptanceOutput>)

  const NO_VERDICTS: Verdicts := Verdicts(None, None, None)
  const BARE: Shelf := Shelf(false, None, None, false, None, false, Blank, false, NO_VERDICTS, false)

  function Place(s: Shelf, a: Artifact): Shelf {
    match a
    case WorktreeArtifact => s.(worktree := true)
    case SpecArtifact(spec) => s.(spec := Some(spec))
    case AssessmentArtifact(assessment, aligned) => s.(assessment := Some(assessment), settled := s.settled || aligned)
    case PlanArtifact(plan) => s.(plan := Some(plan))
    case ReadingArtifact => s.(reading := true)
    case DesignArtifact(text) => s.(design := text)
    case CodeArtifact(_) => s.(code := true)
    case DiffArtifact(diff) => s.(verdicts := s.verdicts.(diff := Some(diff)))
    case ReviewArtifact(review) => s.(verdicts := s.verdicts.(review := Some(review)))
    case AcceptanceArtifact(acceptance) => s.(verdicts := s.verdicts.(acceptance := Some(acceptance)))
    case SyncArtifact => s.(synced := true)
    case _ => s
  }

  function Filed(artifacts: seq<Artifact>): Shelf {
    if artifacts == [] then BARE else Place(Filed(artifacts[..|artifacts| - 1]), artifacts[|artifacts| - 1])
  }

  // ---------------------------------------------------------------- gates

  predicate Aligned(spec: ProductSpec, assessment: Assessment, threshold: int) {
    spec.ready && assessment.approved && assessment.score >= threshold
  }

  /** A stored specification and assessment good enough to skip the alignment loop. */
  predicate Resumable(s: Shelf, threshold: int) {
    s.spec.Some? && s.assessment.Some? && Aligned(s.spec.value, s.assessment.value, threshold)
  }

  /** The verdict in lower case. */
  predicate Approves(verdict: string) {
    verdict == "approved" || verdict == "approve" || verdict == "pass" || verdict == "passed"
  }

  predicate Accepts(acceptance: AcceptanceOutput, review: ReviewOutput, hygiene: nat, threshold: int) {
    && acceptance.accepted
    && acceptance.score >= threshold
    && acceptance.failedCriteria == 0
    && acceptance.instructions == 0
    && review.findings == 0
    && hygiene == 0
    && Approves(review.verdict)
  }

  // ---------------------------------------------------------------- work that is done once

  /** Work whose result is stored so that a later run need not repeat it. */
  datatype Work = Alignment | Planning | Reading | Designing | FirstCode | Syncing

  predicate Has(s: Shelf, w: Work) {
    match w
    case Alignment => s.settled
    case Planning => s.plan.Some?
    case Reading => s.reading
    case Designing => !s.design.Blank?
    case FirstCode => s.code
    case Syncing => s.synced
  }

  /** The artifact that says this work has succeeded; an empty design says nothing. */
  predicate Finishes(a: Artifact, w: Work) {
    match w
    case Alignment => a.AssessmentArtifact? && a.aligned
    case Planning => a.PlanArtifact?
    case Reading => a.ReadingArtifact?
    case Designing => a.DesignArtifact? && !a.text.Blank?
    case FirstCode => a.CodeArtifact? && a.first
    case Syncing => a.SyncArtifact?
  }

  /** What the workflow may store on top of a shelf: nothing already there, and no specification once settled. */
  predicate Fresh(s: Shelf, a: Artifact, threshold: int) {
    match a
    case SpecArtifact(_) => !s.settled
    case AssessmentArtifact(assessment, aligned) =>
      !s.settled && s.spec.Some? && (aligned <==> Aligned(s.spec.value, assessment, threshold))
    case PlanArtifact(_) => s.plan.None?
    case ReadingArtifact => !s.reading
    case DesignArtifact(_) => s.design.Blank?
    case CodeArtifact(first) => first <==> !s.code
    case SyncArtifact => !s.synced
    case _ => true
  }

  /** The shelves met while the artifacts were stored one after another. */
  ghost predicate Filing(artifacts: seq<Artifact>, shelves: seq<Shelf>, threshold: int) {
    && |shelves| == |artifacts| + 1
    && shelves[0] == BARE
    && forall i {:trigger artifacts[i]} | 0 <= i < |artifacts| ::
         Fresh(shelves[i], artifacts[i], threshold) && shelves[i + 1] == Place(shelves[i], artifacts[i])
  }

  ghost predicate Holds(artifacts: seq<Artifact>, s: Shelf, threshold: int) {
    exists shelves: seq<Shelf> :: Filing(artifacts, shelves, threshold) && shelves[|artifacts|] == s
  }

  lemma HoldsNothing(threshold: int)
    ensures Holds([], BARE, threshold)
  {
    assert Filing([], [BARE], threshold);
  }

  lemma HoldsMore(artifacts: seq<Artifact>, s: Shelf, a: Artifact, threshold: int)
    requires Holds(artifacts, s, threshold) && Fresh(s, a, threshold)
    ensures Holds(artifacts + [a], Place(s, a), threshold)
  {
    var shelves :| Filing(artifacts, shelves, threshold) && shelves[|artifacts|] == s;
    var longer, more := shelves + [Place(s, a)], artifacts + [a];
    forall i | 0 <= i < |more|
      ensures Fresh(longer[i], more[i], threshold) && longer[i + 1] == Place(longer[i], more[i])
    {
      if i < |artifacts| { assert more[i] == artifacts[i]; }
    }
    assert Filing(more, longer, threshold);
  }

  lemma FilingPrefix(artifacts: seq<Artifact>, shelves: seq<Shelf>, n: nat, threshold: int)
    requires Filing(artifacts, shelves, threshold) && n <= |artifacts|
    ensures Filing(artifacts[..n], shelves[..n + 1], threshold)
  {
    var before, seen := artifacts[..n], shelves[..n + 1];
    forall i | 0 <= i < n ensures Fresh(seen[i], before[i], threshold) && seen[i + 1] == Place(seen[i], before[i]) {
      assert before[i] == artifacts[i];
    }
  }

  lemma {:induction false} FilingIsFiled(artifacts: seq<Artifact>, shelves: seq<Shelf>, threshold: int)
    requires Filing(artifacts, shelves, threshold)
    ensures Filed(artifacts) == shelves[|artifacts|]
    ensures shelves[|artifacts|].settled ==> Resumable(shelves[|artifacts|], threshold)
  {
    if artifacts != [] {
      var n := |artifacts| - 1;
      FilingPrefix(artifacts, shelves, n, threshold);
      FilingIsFiled(artifacts[..n], shelves[..n + 1], threshold);
      assert Fresh(shelves[n], artifacts[n], threshold) && shelves[n + 1] == Place(shelves[n], artifacts[n]);
    }
  }

  /** The shelf is the dictionary of the stored artifacts, and a settled one lets a later run skip the alignment. */
  lemma HoldsIsFiled(artifacts: seq<Artifact>, s: Shelf, threshold: int)
    requires Holds(artifacts, s, threshold)
    ensures Filed(artifacts) == s
    ensures s.settled ==> Resumable(s, threshold)
  {
    var shelves :| Filing(artifacts, shelves, threshold) && shelves[|artifacts|] == s;
    FilingIsFiled(artifacts, shelves, threshold);
  }

  lemma PlaceKeeps(s: Shelf, a: Artifact, w: Work, threshold: int)
    requires Fresh(s, a, threshold)
    ensures Has(s, w) ==> Has(Place(s, a), w) && !Finishes(a, w)
    ensures Finishes(a, w) ==> Has(Place(s, a), w)
  {
  }

  lemma {:induction false} StaysDone(
      artifacts: seq<Artifact>, shelves: seq<Shelf>, i: nat, j: nat, w: Work, threshold: int)
    requires Filing(artifacts, shelves, threshold) && i <= j <= |artifacts| && Has(shelves[i], w)
    ensures Has(shelves[j], w)
    decreases j
  {
    if i < j {
      StaysDone(artifacts, shelves, i, j - 1, w, threshold);
      var a := artifacts[j - 1];
      PlaceKeeps(shelves[j - 1], a, w, threshold);
    }
  }

  /** No two of the stored artifacts finish the same work. */
  ghost predicate FinishedOnce(artifacts: seq<Artifact>, w: Work) {
    forall i, j | 0 <= i < j < |artifacts| :: !(Finishes(artifacts[i], w) && Finishes(artifacts[j], w))
  }

  lemma HoldsIsOnce(artifacts: seq<Artifact>, s: Shelf, w: Work, threshold: int)
    requires Holds(artifacts, s, threshold)
    ensures FinishedOnce(artifacts, w)
  {
    var shelves :| Filing(artifacts, shelves, threshold) && shelves[|artifacts|] == s;
    forall i, j | 0 <= i < j < |artifacts| ensures !(Finishes(artifacts[i], w) && Finishes(artifacts[j], w)) {
      if Finishes(artifacts[i], w) {
        PlaceKeeps(shelves[i], artifacts[i], w, threshold);
        StaysDone(artifacts, shelves, i + 1, j, w, threshold);
        PlaceKeeps(shelves[j], artifacts[j], w, threshold);
      }
    }
  }

  // ---------------------------------------------------------------- when a resumed alignment was never assessed

  /** The last specification stored has been assessed since. */
  predicate AssessedLast(artifacts: seq<Artifact>) {
    if artifacts == [] then false
    else
      var a := artifacts[|artifacts| - 1];
      a.AssessmentArtifact? || (!a.SpecArtifact? && AssessedLast(artifacts[..|artifacts| - 1]))
  }

  lemma {:induction false} FilingSettledIff(artifacts: seq<Artifact>, shelves: seq<Shelf>, threshold: int)
    requires Filing(artifacts, shelves, threshold)
    ensures var s := shelves[|artifacts|];
            if AssessedLast(artifacts)
            then s.spec.Some? && s.assessment.Some? && (s.settled <==> Resumable(s, threshold))
            else !s.settled
  {
    if artifacts != [] {
      var n := |artifacts| - 1;
      FilingPrefix(artifacts, shelves, n, threshold);
      FilingSettledIff(artifacts[..n], shelves[..n + 1], threshold);
      assert Fresh(shelves[n], artifacts[n], threshold) && shelves[n + 1] == Place(shelves[n], artifacts[n]);
    }
  }

  /**
   * Specification and assessment are stored one after the other, and a resumed run looks at the last of each. What it
   * resumes has really been aligned if and only if the last specification was assessed after it was stored.
   */
  lemma ResumedIsAlignedIff(artifacts: seq<Artifact>, s: Shelf, threshold: int)
    requires Holds(artifacts, s, threshold) && Resumable(s, threshold)
    ensures s.settled <==> AssessedLast(artifacts)
  {
    var shelves :| Filing(artifacts, shelves, threshold) && shelves[|artifacts|] == s;
    FilingSettledIff(artifacts, shelves, threshold);
  }

  /** What one uncancelled alignment round adds to the artifacts, given what the two agents answer. */
  predicate RoundStores(before: seq<Artifact>, after: seq<Artifact>, spec: Option<ProductSpec>,
                        assessment: Option<Assessment>, threshold: int) {
    if spec.None? then after == before
    else if assessment.None? then after == before + [SpecArtifact(spec.value)]
    else after == before + [SpecArtifact(spec.value)]
                  + [AssessmentArtifact(assessment.value, Aligned(spec.value, assessment.value, threshold))]
  }

  /** And what it returns. */
  function RoundAnswer(spec: Option<ProductSpec>, assessment: Option<Assessment>, threshold: int): Result<bool> {
    if spec.None? || assessment.None? then Raised(WorkflowError)
    else Ok(Aligned(spec.value, assessment.value, threshold))
  }

  // ---------------------------------------------------------------- commands and shell runs

  datatype Commands = Commands(build: Option<Command>, test: Option<Command>, run: Option<Command>)

  function Or<T>(a: Option<T>, b: Option<T>): Option<T> {
    if a.Some? then a else b
  }

  /** The last command one validation round runs, if any is configured. */
  function LastCommand(c: Commands): Option<Command> {
    Or(c.run, Or(c.test, c.build))
  }

  /** One finished shell run: the command, its exit code, and the worktree it left. */
  datatype ShellRun = ShellRun(command: Command, exit: int, left: Tree)

  /** These runs are all of one command, the last exited 0 and no other did; no command needs no run. */
  predicate EndsWell(runs: seq<ShellRun>, command: Option<Command>) {
    match command
    case None => runs == []
    case Some(line) =>
      && runs != [] && runs[|runs| - 1].exit == 0
      && (forall i | 0 <= i < |runs| :: runs[i].command == line)
      && (forall i | 0 <= i < |runs| - 1 :: runs[i].exit != 0)
  }

  /** First all runs of the build, then all of the test, then all of the run command, each until it exited 0. */
  ghost predicate Validated(runs: seq<ShellRun>, c: Commands) {
    exists i, j ::
      && 0 <= i <= j <= |runs|
      && EndsWell(runs[..i], c.build) && EndsWell(runs[i..j], c.test) && EndsWell(runs[j..], c.run)
  }

  /** The last of the runs, if a command is configured, left exactly this tree. */
  predicate LeftBy(tree: Tree, c: Commands, runs: seq<ShellRun>) {
    LastCommand(c).Some? ==> runs != [] && runs[|runs| - 1] == ShellRun(LastCommand(c).value, 0, tree)
  }

  /** Since `from`, every configured command has exited 0, in order, and the last one left this tree. */
  ghost predicate Checked(tree: Tree, c: Commands, runs: seq<ShellRun>, from: nat) {
    from <= |runs| && Validated(runs[from..], c) && LeftBy(tree, c, runs[from..])
  }

  /** The shell runs before a cycle, after its build, after its test, and at its end. */
  lemma CycleChecks(r0: seq<ShellRun>, r1: seq<ShellRun>, r2: seq<ShellRun>, r3: seq<ShellRun>, c: Commands, tree: Tree)
    requires r0 <= r1 <= r2 <= r3
    requires EndsWell(r1[|r0|..], c.build) && EndsWell(r2[|r1|..], c.test) && EndsWell(r3[|r2|..], c.run)
    requires |r0| < |r3| ==> r3[|r3| - 1].left == tree
    ensures Checked(tree, c, r3, |r0|)
  {
    var part, i, j := r3[|r0|..], |r1| - |r0|, |r2| - |r0|;
    assert part[..i] == r1[|r0|..] && part[i..j] == r2[|r1|..] && part[j..] == r3[|r2|..];
  }

  /**
   * What happened in the current run: the stages entered, how many of them were PRODUCT, the calls started to agents
   * other than the coder, to the coder and to the shell (`late` counts those started after cancellation was requested),
   * the finished shell runs and how many of them came before the last validation cycle, the hygiene findings of
   * the last diff, the diffs given to reviewer and judge, whether the last judgement accepted the diff, and whether git
   * declined its sync.
   */
  datatype Log = Log(
    trace: seq<Stage>, phase: Phase, products: nat, agents: nat, coder: nat, shell: nat, late: nat,
    runs: seq<ShellRun>, cycle: nat, hygiene: nat, reviewed: Option<Diff>, judged: Option<Diff>,
    accepted: bool, declined: bool)

  const NEW_LOG: Log := Log([], Before(0), 0, 0, 0, 0, 0, [], 0, 0, None, None, false, false)

  /** Only calls were made. */
  predicate OnlyCalls(a: Log, b: Log) {
    && b == a.(agents := b.agents, coder := b.coder, shell := b.shell, late := b.late, runs := b.runs)
    && a.runs <= b.runs
  }

  /** Nothing was run in between. */
  predicate SameRuns(a: Log, b: Log) {
    b.runs == a.runs && b.cycle == a.cycle && b.hygiene == a.hygiene
  }

  /** Only stages were entered. */
  predicate OnlyStages(a: Log, b: Log) {
    b == a.(trace := b.trace, phase := b.phase)
  }

  /** No PRODUCT stage, and at most this many calls to agents other than the coder, to the coder, and shell runs. */
  predicate AtMost(a: Log, b: Log, agents: int, coder: int, shell: int) {
    b.products == a.products && Calls(a, b, agents, coder, shell)
  }

  predicate Calls(a: Log, b: Log, agents: int, coder: int, shell: int) {
    && a.agents <= b.agents <= a.agents + agents
    && a.coder <= b.coder <= a.coder + coder
    && a.shell <= b.shell <= a.shell + shell
  }

  /** At most this many PRODUCT stages as well. */
  predicate AtMostWith(a: Log, b: Log, products: int, agents: int, coder: int, shell: int) {
    a.products <= b.products <= a.products + products && Calls(a, b, agents, coder, shell)
  }

  /** Nothing but diffs and verdicts has been saved in between. */
  predicate OnlyVerdicts(a: Shelf, b: Shelf) {
    a.(verdicts := NO_VERDICTS) == b.(verdicts := NO_VERDICTS)
  }

  /** Nothing but specifications and assessments has been saved in between. */
  predicate OnlyAlignment(a: Shelf, b: Shelf) {
    a.(spec := None, assessment := None, settled := true) == b.(spec := None, assessment := None, settled := true)
  }

  /** What the steps after the plan look at is as it was. */
  predicate SameBuild(a: Shelf, b: Shelf) {
    a.reading == b.reading && a.design == b.design && a.code == b.code && a.synced == b.synced
  }

  /** The stored diff is the diff of this tree, and it is what the reviewer and the acceptance judge were given. */
  predicate WasReviewed(v: Verdicts, tree: Tree, log: Log) {
    v.diff == Some(DiffOf(tree)) && log.reviewed == v.diff && log.judged == v.diff
  }

  datatype Outcome = Outcome(review: ReviewOutput, acceptance: AcceptanceOutput, accepted: bool)

  /** What a finished acceptance round vouches for. */
  ghost predicate Delivers(o: Outcome, v: Verdicts, tree: Tree, log: Log, c: Commands, threshold: int) {
    && WasReviewed(v, tree, log)
    && Checked(tree, c, log.runs, log.cycle)
    && v.review == Some(o.review)
    && v.acceptance == Some(o.acceptance)
    && (o.accepted ==> Accepts(o.acceptance, o.review, log.hygiene, threshold))
  }

  /** What was stored, reviewed and judged vouches for this tree: every gate was open for exactly its diff. */
  ghost predicate Vouched(v: Verdicts, tree: Tree, log: Log, c: Commands, threshold: int) {
    && v.review.Some? && v.acceptance.Some?
    && Delivers(Outcome(v.review.value, v.acceptance.value, true), v, tree, log, c, threshold)
  }

  /** Stages entered after an accepting round take nothing away from it. */
  lemma AcceptedIsVouched(o: Outcome, v: Verdicts, tree: Tree, a: Log, b: Log, c: Commands, threshold: int)
    requires Delivers(o, v, tree, a, c, threshold) && o.accepted && OnlyStages(a.(declined := b.declined), b)
    ensures Vouched(v, tree, b, c, threshold)
  {
  }

  lemma StagesAfterSync(a: Log, synced: Log, b: Log)
    requires synced == a.(declined := synced.declined) && OnlyStages(synced, b)
    ensures OnlyStages(a.(declined := b.declined), b)
  {
  }

  function StageProgress(s: Stage): int {
    match s
    case Product => 6
    case Planner => 14
    case Reader => 24
    case Design => 34
    case Coder => 48
    case Build => 60
    case Test => 72
    case Review => 84
    case Acceptance => 94
    case Delivery => 98
  }

  /** Progress never goes back from a stage to a later one, and is complete only at the end. */
  lemma ProgressAscends(a: Stage, b: Stage)
    requires StageRank(a) < StageRank(b)
    ensures 0 < StageProgress(a) < StageProgress(b) < 100
  {
  }

  /** The documented order of the stages. */
  function StageRank(s: Stage): nat {
    match s
    case Product => 0 case Planner => 1 case Reader => 2 case Design => 3 case Coder => 4
    case Build => 5 case Test => 6 case Review => 7 case Acceptance => 8 case Delivery => 9
  }

  /** Calls one validation round may make: three commands, each run F + 1 times with F fixes between. */
  function FixCap(cfg: Limits): nat { 3 * Max(0, cfg.maxFix) }
  function ShellCap(cfg: Limits): nat { 3 * Max(0, cfg.maxFix + 1) }
  /** Specification and assessment per alignment round, plan, reading and design, review and judgement per round. */
  function AgentCap(cfg: Limits): nat { 2 * Max(0, cfg.maxProduct) + 3 + 2 * Rounds(cfg) }
  function LoopCoderCap(cfg: Limits): nat { Max(0, cfg.maxAcceptance) + Rounds(cfg) * FixCap(cfg) }
  function Rounds(cfg: Limits): nat { Max(0, cfg.maxAcceptance + 1) }

  lemma OneMoreRound(n: nat, rounds: nat, cap: nat)
    requires n < rounds
    ensures n * cap + cap == (n + 1) * cap <= rounds * cap
  {
    var left := rounds - (n + 1);
    assert rounds * cap == (n + 1) * cap + left * cap;
    assert left * cap >= 0;
  }

  /**
   * How the sync of an accepted diff ends: git declines it, something else fails before, or it is applied; and then the
   * record of it is stored, or the run ends before that.
   */
  datatype SyncEnd = Declined | Fails | Unrecorded | Recorded

  lemma TraceFacts(log: Log, cfg: Limits)
    requires Entered(log.trace, log.phase, log.products) && Corrections(log.phase) <= Max(0, cfg.maxAcceptance)
    ensures WithinLanguage(log.trace, Max(0, cfg.maxAcceptance)) && multiset(log.trace)[Product] == log.products
  {
    EnteredFacts(log.trace, log.phase, log.products);
    AutomatonIsLanguage(log.trace, Max(0, cfg.maxAcceptance));
  }

  lemma StoreFacts(artifacts: seq<Artifact>, s: Shelf, threshold: int)
    requires Holds(artifacts, s, threshold)
    ensures s == Filed(artifacts) && forall w :: FinishedOnce(artifacts, w)
  {
    HoldsIsFiled(artifacts, s, threshold);
    forall w ensures FinishedOnce(artifacts, w) {
      HoldsIsOnce(artifacts, s, w, threshold);
    }
  }

  class WorkflowEngine {
    const cfg: Limits
    const task: TaskOptions
    var row: TaskRow
    var artifacts: seq<Artifact>
    var onDisk: bool
    var tree: Tree
    var source: seq<Diff>
    ghost var shelf: Shelf
    ghost var created: nat
    ghost var removed: nat
    ghost var unrecorded: nat
    ghost var log: Log

    ghost predicate Stored()
      reads `artifacts, `shelf
    {
      Holds(artifacts, shelf, cfg.threshold)
    }

    /**
     * One patch of the source per stored sync record and per run that ended before it could store its own, one
     * worktree more than have been removed while one is there.
     */
    ghost predicate Valid()
      reads this
    {
      && Stored()
      && |source| == unrecorded + (if shelf.synced then 1 else 0)
      && created == removed + (if onDisk then 1 else 0)
    }

    /** The stages entered so far are in order, and no call started late unless the cancel flag is still set. */
    ghost predicate Running()
      reads `row, `log
    {
      Entered(log.trace, log.phase, log.products) && (log.late > 0 ==> row.cancelRequested)
    }

    constructor (cfg: Limits, task: TaskOptions, row: TaskRow)
      ensures Valid() && Running() && log == NEW_LOG && shelf == BARE
      ensures artifacts == [] && source == [] && unrecorded == 0 && !onDisk && created == removed == 0
      ensures this.cfg == cfg && this.task == task && this.row == row
    {
      this.cfg, this.task, this.row := cfg, task, row;
      artifacts, onDisk, tree, source := [], false, 0, [];
      shelf, created, removed, unrecorded, log := BARE, 0, 0, 0, NEW_LOG;
      HoldsNothing(cfg.threshold);
      NothingEntered();
    }

    /** Retention maintenance may delete the worktree directory between runs. */
    method RemoveWorktree()
      requires Valid()
      modifies `onDisk, `removed
      ensures Valid() && !onDisk
      ensures removed == old(removed) + if old(onDisk) then 1 else 0
    {
      removed := removed + if onDisk then 1 else 0;
      onDisk := false;
    }

    // -------------------------------------------------------------- storage and oracles

    /** A user may request cancellation at any moment. */
    method Interfere()
      modifies `row
      ensures old(row.cancelRequested) ==> row.cancelRequested
      ensures row == old(row).(cancelRequested := row.cancelRequested)
    {
      var requested: bool := *;
      row := row.(cancelRequested := row.cancelRequested || requested);
    }

    method AddArtifact(a: Artifact)
      requires Stored() && Fresh(shelf, a, cfg.threshold)
      modifies `artifacts, `shelf
      ensures Stored() && artifacts == old(artifacts) + [a] && shelf == Place(old(shelf), a)
    {
      HoldsMore(artifacts, shelf, a, cfg.threshold);
      artifacts, shelf := artifacts + [a], Place(shelf, a);
    }

    /** Reading the repository (inventory, context, diff, findings) may fail and changes nothing. */
    method ReadRepository() returns (r: Result<()>)
      ensures r.Raised? ==> r.error == WorkflowError
    {
      var fails: bool := *;
      return if fails then Raised(WorkflowError) else Ok(());
    }

    method StartCall()
      requires Running()
      modifies `row, `log
      ensures Running() && (old(row.cancelRequested) ==> row.cancelRequested)
      ensures log == old(log).(late := log.late) && old(log.late) <= log.late <= old(log.late) + 1
    {
      Interfere();
      log := log.(late := log.late + if row.cancelRequested then 1 else 0);
    }

    /** A call to an agent other than the coder: it answers, or raises when there is no answer. */
    method Ask<T>(answer: Option<T>) returns (r: Result<T>)
      requires Running()
      modifies `row, `log
      ensures Running() && (old(row.cancelRequested) ==> row.cancelRequested)
      ensures log == old(log).(agents := old(log.agents) + 1, late := log.late) && log.late <= old(log.late) + 1
      ensures r == Answered(answer)
    {
      StartCall();
      log := log.(agents := log.agents + 1);
      return if answer.Some? then Ok(answer.value) else Raised(WorkflowError);
    }

    method AskCoder() returns (r: Result<nat>)
      requires Running()
      modifies `row, `log
      ensures Running() && (old(row.cancelRequested) ==> row.cancelRequested)
      ensures log == old(log).(coder := old(log.coder) + 1, late := log.late) && log.late <= old(log.late) + 1
      ensures r.Raised? ==> r.error == WorkflowError
    {
      StartCall();
      log := log.(coder := log.coder + 1);
      var answer: Option<nat> := *;
      return if answer.Some? then Ok(answer.value) else Raised(WorkflowError);
    }

    /** _apply_code writes the changes only if the task asks for it, and may fail half way. */
    method ApplyCode(code: nat) returns (r: Result<()>)
      modifies `tree
      ensures !task.autoApply ==> tree == old(tree) && r.Ok?
      ensures r.Raised? ==> r.error == WorkflowError
    {
      if task.autoApply {
        tree := *;
        r := ReadRepository();
      } else {
        r := Ok(());
      }
    }

    /** One call to the coder on the refreshed context, and its changes. */
    method FixCode() returns (r: Result<()>)
      requires Running()
      modifies `row, `log, `tree
      ensures Running() && (old(row.cancelRequested) ==> row.cancelRequested)
      ensures log == old(log).(coder := log.coder, late := log.late) && log.late <= old(log.late) + 1
      ensures if r.Ok? then log.coder == old(log.coder) + 1 else old(log.coder) <= log.coder <= old(log.coder) + 1
      ensures r.Raised? ==> r.error == WorkflowError
    {
      var _ :- ReadRepository();
      var fix :- AskCoder();
      r := ApplyCode(fix);
    }

    method RunShell(command: Command) returns (r: Result<int>)
      requires Running()
      modifies `row, `log, `tree
      ensures Running() && (old(row.cancelRequested) ==> row.cancelRequested)
      ensures OnlyCalls(old(log), log) && AtMost(old(log), log, 0, 0, 1) && log.late <= old(log.late) + 1
      ensures log.runs == old(log.runs) + if r.Ok? then [ShellRun(command, r.value, tree)] else []
      ensures r.Raised? ==> r.error == WorkflowError
    {
      StartCall();
      tree := *;
      log := log.(shell := log.shell + 1);
      var _ :- ReadRepository();
      var exit: int := *;
      log := log.(runs := log.runs + [ShellRun(command, exit, tree)]);
      return Ok(exit);
    }

    // -------------------------------------------------------------- _check_cancelled and _enter

    method CheckCancelled() returns (r: Result<()>)
      requires Running()
      modifies `row
      ensures Running() && (old(row.cancelRequested) ==> row.cancelRequested)
      ensures row == old(row).(cancelRequested := row.cancelRequested)
      ensures r == if row.cancelRequested then Raised(TaskCancelledError) else Ok(())
      ensures r.Ok? ==> log.late == 0
    {
      Interfere();
      return if row.cancelRequested then Raised(TaskCancelledError) else Ok(());
    }

    method Enter(s: Stage) returns (r: Result<()>)
      requires Running() && Advance(log.phase, s).Some?
      modifies `row, `log
      ensures Running() && (old(row.cancelRequested) ==> row.cancelRequested && r.Raised?)
      ensures r.Ok? ==> log == old(log).(trace := old(log.trace) + [s], phase := Advance(old(log.phase), s).value,
                                         products := old(log.products) + if s == Product then 1 else 0)
      ensures r.Ok? ==> log.late == 0
      ensures r.Ok? ==> row.status == TaskStatus.Running && row.stage == Some(s) && row.progress == StageProgress(s)
      ensures r.Raised? ==>
                r.error == TaskCancelledError && log == old(log) && row == old(row).(cancelRequested := true)
      ensures r.Raised? && r.error == TaskCancelledError ==> row.cancelRequested
    {
      var _ :- CheckCancelled();
      row := row.(status := TaskStatus.Running, stage := Some(s), progress := StageProgress(s));
      EnteredSnoc(log.trace, log.phase, log.products, s);
      log := log.(trace := log.trace + [s], phase := Advance(log.phase, s).value,
                  products := log.products + if s == Product then 1 else 0);
      return Ok(());
    }

    // -------------------------------------------------------------- validation and acceptance

    /**
     * _validate_with_fixes: run the command, at most F fixes between runs, until it exits 0. Unless a call failed
     * (`broke`), it gives up only after F + 1 runs.
     */
    method ValidateWithFixes(command: Command) returns (r: Result<()>, ghost broke: bool)
      requires Running() && log.late <= 2
      modifies `row, `log, `tree
      ensures Running() && (old(row.cancelRequested) ==> row.cancelRequested)
      ensures OnlyCalls(old(log), log) && log.late <= 2
      ensures AtMost(old(log), log, 0, Max(0, cfg.maxFix), Max(0, cfg.maxFix + 1))
      ensures r.Ok? ==> EndsWell(log.runs[|old(log.runs)|..], Some(command)) && log.runs[|log.runs| - 1].left == tree
      ensures r.Ok? ==> log.coder == old(log.coder) + |log.runs| - |old(log.runs)| - 1
      ensures r.Raised? && r.error == TaskCancelledError ==> row.cancelRequested
      ensures r.Raised? && r.error == WorkflowError && !broke ==> |log.runs| == |old(log.runs)| + Max(0, cfg.maxFix + 1)
    {
      broke := false;
      for attempt := 0 to Max(0, cfg.maxFix + 1)
        invariant Running() && (old(row.cancelRequested) ==> row.cancelRequested)
        invariant OnlyCalls(old(log), log) && log.late <= 2
        invariant attempt <= Max(0, cfg.maxFix) && AtMost(old(log), log, 0, attempt, attempt)
        invariant |log.runs| == |old(log.runs)| + attempt && log.coder == old(log.coder) + attempt
        invariant forall i | |old(log.runs)| <= i < |log.runs| ::
                    log.runs[i].command == command && log.runs[i].exit != 0
      {
        var _ :- CheckCancelled();
        broke := true;
        var exit :- RunShell(command);
        broke := false;
        if exit == 0 {
          return Ok(()), false;
        }
        if attempt >= cfg.maxFix {
          return Raised(WorkflowError), false;
        }
        broke := true;
        var _ :- FixCode();
        broke := false;
      }
      return Raised(WorkflowError), false;
    }

    /** One configured command inside its stage. */
    method ValidateIn(s: Stage, command: Option<Command>) returns (r: Result<()>)
      requires Running() && log.late <= 2 && Advance(log.phase, s).Some? && s != Product
      modifies `row, `log, `tree
      ensures Running() && (old(row.cancelRequested) ==> row.cancelRequested && r.Raised?)
      ensures OnlyCalls(old(log), log.(trace := old(log.trace), phase := old(log.phase))) && log.late <= 2
      ensures AtMost(old(log), log, 0, Max(0, cfg.maxFix), Max(0, cfg.maxFix + 1))
      ensures log.phase == old(log.phase) || Some(log.phase) == Advance(old(log.phase), s)
      ensures r.Ok? ==> Some(log.phase) == Advance(old(log.phase), s)
      ensures r.Ok? ==> EndsWell(log.runs[|old(log.runs)|..], command)
      ensures r.Ok? && command.Some? ==> log.runs[|log.runs| - 1].left == tree
      ensures r.Ok? && command.None? ==> tree == old(tree)
      ensures r.Raised? && r.error == TaskCancelledError ==> row.cancelRequested
    {
      var _ :- Enter(s);
      if command.Some? {
        var _, broke :- ValidateWithFixes(command.value);
      }
      return Ok(());
    }

    /** The first two thirds of a validation cycle; `built` are the shell runs up to the end of the build. */
    method BuildAndTest(c: Commands) returns (r: Result<()>, ghost built: seq<ShellRun>)
      requires Running() && log.late <= 2 && Advance(log.phase, Build).Some?
      modifies `row, `log, `tree
      ensures Running() && (old(row.cancelRequested) ==> row.cancelRequested && r.Raised?)
      ensures log.late <= 2 && AtMost(old(log), log, 0, 2 * Max(0, cfg.maxFix), 2 * Max(0, cfg.maxFix + 1))
      ensures Corrections(log.phase) == Corrections(old(log.phase)) && log.cycle == old(log.cycle)
      ensures old(log.runs) <= built <= log.runs
      ensures r.Ok? ==> log.phase.Testing?
      ensures r.Ok? ==> EndsWell(built[|old(log.runs)|..], c.build) && EndsWell(log.runs[|built|..], c.test)
      ensures r.Ok? && |old(log.runs)| < |log.runs| ==> log.runs[|log.runs| - 1].left == tree
      ensures r.Raised? && r.error == TaskCancelledError ==> row.cancelRequested
    {
      built := log.runs;
      var _ :- ValidateIn(Build, c.build);
      built := log.runs;
      r := ValidateIn(Test, c.test);
    }

    /** _run_validation_cycle: build, test, then the run command; the first two stages are entered even when skipped. */
    method RunValidationCycle(c: Commands) returns (r: Result<()>)
      requires Running() && log.late <= 2 && Advance(log.phase, Build).Some?
      modifies `row, `log, `tree
      ensures Running() && (old(row.cancelRequested) ==> row.cancelRequested && r.Raised?)
      ensures log.late <= 2 && AtMost(old(log), log, 0, FixCap(cfg), ShellCap(cfg))
      ensures Corrections(log.phase) == Corrections(old(log.phase))
      ensures r.Ok? ==> log.phase.Testing? || log.phase.Launching?
      ensures log.cycle == |old(log.runs)| && old(log.runs) <= log.runs
      ensures r.Ok? ==> Checked(tree, c, log.runs, log.cycle)
      ensures r.Raised? && r.error == TaskCancelledError ==> row.cancelRequested
    {
      log := log.(cycle := |log.runs|);
      ghost var built;
      r, built := BuildAndTest(c);
      if r.Raised? {
        return r;
      }
      ghost var tested := log.runs;
      if c.run.Some? {
        var _ :- ValidateIn(Test, c.run);
      }
      CycleChecks(old(log.runs), built, tested, log.runs, c, tree);
      return Ok(());
    }

    /** Store the worktree's diff and what the checks said; returns the number of hygiene findings. */
    method StoreDiff() returns (r: Result<nat>)
      requires Stored()
      modifies `artifacts, `shelf, `log
      ensures Stored() && log == old(log).(hygiene := log.hygiene) && (r.Ok? ==> r.value == log.hygiene)
      ensures shelf == Place(old(shelf), DiffArtifact(DiffOf(tree))) || (r.Raised? && shelf == old(shelf))
      ensures r.Ok? ==> artifacts == old(artifacts) + [DiffArtifact(DiffOf(tree))] + [ValidationArtifact]
      ensures r.Raised? && r.error == TaskCancelledError ==> row.cancelRequested
    {
      var _ :- ReadRepository();
      var hygiene: nat := *;
      log := log.(hygiene := hygiene);
      AddArtifact(DiffArtifact(DiffOf(tree)));
      var _ :- ReadRepository();
      AddArtifact(ValidationArtifact);
      return Ok(hygiene);
    }

    /** The review of the given diff. */
    method ReviewDiff(diff: Diff) returns (r: Result<ReviewOutput>)
      requires Stored() && Running() && log.late <= 2 && (log.phase.Testing? || log.phase.Launching?)
      modifies `row, `log, `artifacts, `shelf
      ensures Stored() && Running() && (old(row.cancelRequested) ==> row.cancelRequested)
      ensures log.late <= 2 && AtMost(old(log), log, 1, 0, 0) && SameRuns(old(log), log)
      ensures r.Ok? ==> log.agents == old(log.agents) + 1
      ensures Corrections(log.phase) == Corrections(old(log.phase))
      ensures shelf == if r.Ok? then Place(old(shelf), ReviewArtifact(r.value)) else old(shelf)
      ensures r.Ok? ==> log.phase.Reviewing? && log.reviewed == Some(diff)
      ensures r.Raised? && r.error == TaskCancelledError ==> row.cancelRequested
    {
      var _ :- Enter(Review);
      log := log.(reviewed := Some(diff));
      var answer: Option<ReviewOutput> := *;
      var review :- Ask(answer);
      AddArtifact(ReviewArtifact(review));
      return Ok(review);
    }

    /** The acceptance half: the judge sees the same diff, and every gate must be open. */
    method JudgeDiff(diff: Diff, review: ReviewOutput, hygiene: nat) returns (r: Result<Outcome>)
      requires Stored() && Running() && log.late <= 2 && log.phase.Reviewing?
      modifies `row, `log, `artifacts, `shelf
      ensures Stored() && Running() && (old(row.cancelRequested) ==> row.cancelRequested)
      ensures log.late <= 2 && AtMost(old(log), log, 1, 0, 0) && SameRuns(old(log), log)
      ensures r.Ok? ==> log.agents == old(log.agents) + 1
      ensures Corrections(log.phase) == Corrections(old(log.phase))
      ensures shelf == if r.Ok? then Place(old(shelf), AcceptanceArtifact(r.value.acceptance)) else old(shelf)
      ensures log.reviewed == old(log.reviewed)
      ensures r.Ok? ==> log.phase.Judging? && log.judged == Some(diff)
      ensures r.Ok? ==> r.value.review == review
      ensures r.Ok? ==> (r.value.accepted <==> Accepts(r.value.acceptance, review, hygiene, cfg.threshold))
      ensures r.Ok? ==> log.accepted == r.value.accepted
      ensures r.Raised? && r.error == TaskCancelledError ==> row.cancelRequested
    {
      var _ :- Enter(Acceptance);
      log := log.(judged := Some(diff));
      var answer: Option<AcceptanceOutput> := *;
      var acceptance :- Ask(answer);
      var accepted :=
        acceptance.accepted && acceptance.score >= cfg.threshold && acceptance.failedCriteria == 0
        && acceptance.instructions == 0 && review.findings == 0 && hygiene == 0 && Approves(review.verdict);
      AddArtifact(AcceptanceArtifact(acceptance));
      log := log.(accepted := accepted);
      return Ok(Outcome(review, acceptance, accepted));
    }

    /** Review and acceptance of the stored diff. */
    method ReviewAndJudge(diff: Diff, hygiene: nat) returns (r: Result<Outcome>)
      requires Stored() && Running() && log.late <= 2 && (log.phase.Testing? || log.phase.Launching?)
      modifies `row, `log, `artifacts, `shelf
      ensures Stored() && Running() && (old(row.cancelRequested) ==> row.cancelRequested)
      ensures log.late <= 2 && AtMost(old(log), log, 2, 0, 0) && SameRuns(old(log), log)
      ensures Corrections(log.phase) == Corrections(old(log.phase))
      ensures OnlyVerdicts(old(shelf), shelf) && shelf.verdicts.diff == old(shelf.verdicts.diff)
      ensures r.Ok? ==> log.phase.Judging? && log.reviewed == log.judged == Some(diff)
      ensures r.Ok? ==> shelf.verdicts.review == Some(r.value.review)
      ensures r.Ok? ==> shelf.verdicts.acceptance == Some(r.value.acceptance)
      ensures r.Ok? ==>
                (r.value.accepted <==>
                   && r.value.acceptance.accepted && r.value.acceptance.score >= cfg.threshold
                   && r.value.acceptance.failedCriteria == 0 && r.value.acceptance.instructions == 0
                   && r.value.review.findings == 0 && hygiene == 0
                   && r.value.review.verdict in ["approved", "approve", "pass", "passed"])
      ensures r.Ok? ==> log.accepted == r.value.accepted
      ensures r.Raised? && r.error == TaskCancelledError ==> row.cancelRequested
    {
      var review :- ReviewDiff(diff);
      r := JudgeDiff(diff, review, hygiene);
    }

    /** The checks of one round, and the diff they leave. */
    method ValidateAndStore(c: Commands) returns (r: Result<nat>)
      requires Stored() && Running() && log.late <= 2 && Advance(log.phase, Build).Some?
      modifies `row, `log, `tree, `artifacts, `shelf
      ensures Stored() && Running() && (old(row.cancelRequested) ==> row.cancelRequested && r.Raised?)
      ensures log.late <= 2 && AtMost(old(log), log, 0, FixCap(cfg), ShellCap(cfg))
      ensures Corrections(log.phase) == Corrections(old(log.phase))
      ensures shelf == Place(old(shelf), DiffArtifact(DiffOf(tree))) || (r.Raised? && shelf == old(shelf))
      ensures r.Ok? ==> log.phase.Testing? || log.phase.Launching?
      ensures r.Ok? ==> Checked(tree, c, log.runs, log.cycle)
      ensures r.Ok? ==> r.value == log.hygiene
      ensures r.Raised? && r.error == TaskCancelledError ==> row.cancelRequested
    {
      var _ :- RunValidationCycle(c);
      r := StoreDiff();
    }

    /** One round of the acceptance loop: validate, store the diff, review it and judge it. */
    method JudgeRound(c: Commands) returns (r: Result<Outcome>)
      requires Stored() && Running() && log.late <= 2 && Advance(log.phase, Build).Some?
      modifies `row, `log, `tree, `artifacts, `shelf
      ensures Stored() && Running() && (old(row.cancelRequested) ==> row.cancelRequested && r.Raised?)
      ensures log.late <= 2 && AtMost(old(log), log, 2, FixCap(cfg), ShellCap(cfg))
      ensures Corrections(log.phase) == Corrections(old(log.phase))
      ensures OnlyVerdicts(old(shelf), shelf)
      ensures r.Ok? ==> log.phase.Judging? && Delivers(r.value, shelf.verdicts, tree, log, c, cfg.threshold)
      ensures r.Ok? ==> log.accepted == r.value.accepted
      ensures r.Raised? && r.error == TaskCancelledError ==> row.cancelRequested
    {
      var hygiene :- ValidateAndStore(c);
      r := ReviewAndJudge(DiffOf(tree), hygiene);
    }

    /** A correction asked for by the acceptance judge or the reviewer. */
    method Correct() returns (r: Result<()>)
      requires Stored() && Running() && log.late <= 2 && shelf.code && log.phase.Judging?
      modifies `row, `log, `tree, `artifacts, `shelf
      ensures Stored() && Running() && (old(row.cancelRequested) ==> row.cancelRequested && r.Raised?)
      ensures log.late <= 2 && AtMost(old(log), log, 0, 1, 0) && shelf == old(shelf)
      ensures log.phase == old(log.phase) || log.phase == Fixing(old(log.phase.i))
      ensures r.Ok? ==> log.coder == old(log.coder) + 1
      ensures r.Ok? ==> log.phase == Fixing(old(log.phase.i))
      ensures log.accepted == old(log.accepted)
      ensures r.Raised? && r.error == TaskCancelledError ==> row.cancelRequested
    {
      var _ :- Enter(Coder);
      var _ :- FixCode();
      AddArtifact(CodeArtifact(false));
      return Ok(());
    }

    /** One iteration of the acceptance loop: its outcome, or None when a correction has been made. */
    method Iterate(c: Commands, last: bool) returns (r: Result<Option<Outcome>>)
      requires Stored() && Running() && log.late <= 2 && shelf.code && Advance(log.phase, Build).Some?
      modifies `row, `log, `tree, `artifacts, `shelf
      ensures Stored() && Running() && (old(row.cancelRequested) ==> row.cancelRequested)
      ensures log.late <= 2 && OnlyVerdicts(old(shelf), shelf)
      ensures AtMost(old(log), log, 2, FixCap(cfg) + if last then 0 else 1, ShellCap(cfg))
      ensures Corrections(log.phase) <= Corrections(old(log.phase)) + if last then 0 else 1
      ensures r.Ok? && r.value.None? ==> !last && log.phase == Fixing(Corrections(old(log.phase))) && !log.accepted
      ensures r.Ok? && r.value.Some? ==>
                && log.phase == Judging(Corrections(old(log.phase)))
                && Delivers(r.value.value, shelf.verdicts, tree, log, c, cfg.threshold)
                && (r.value.value.accepted || last) && log.accepted == r.value.value.accepted
      ensures r.Raised? && r.error == TaskCancelledError ==> row.cancelRequested
    {
      var outcome :- JudgeRound(c);
      if outcome.accepted || last {
        return Ok(Some(outcome));
      }
      var _ :- Correct();
      return Ok(None);
    }

    /** _acceptance_loop. */
    method AcceptanceLoop(c: Commands) returns (r: Result<Outcome>)
      requires Stored() && Running() && log.late <= 2 && shelf.code && log.phase.Before?
      modifies `row, `log, `tree, `artifacts, `shelf
      ensures Stored() && Running() && (old(row.cancelRequested) ==> row.cancelRequested)
      ensures log.late <= 2 && AtMost(old(log), log, 2 * Rounds(cfg), LoopCoderCap(cfg), Rounds(cfg) * ShellCap(cfg))
      ensures Corrections(log.phase) <= Max(0, cfg.maxAcceptance)
      ensures OnlyVerdicts(old(shelf), shelf)
      ensures r.Ok? ==> log.phase.Judging? && Delivers(r.value, shelf.verdicts, tree, log, c, cfg.threshold)
      ensures r.Ok? ==> log.accepted == r.value.accepted
      ensures r.Ok? && !r.value.accepted ==> Corrections(log.phase) == cfg.maxAcceptance
      ensures r.Raised? && r.error == TaskCancelledError ==> row.cancelRequested
    {
      for iteration := 0 to Rounds(cfg)
        invariant Stored() && Running() && (old(row.cancelRequested) ==> row.cancelRequested)
        invariant log.late <= 2 && iteration <= Max(0, cfg.maxAcceptance)
        invariant AtMost(old(log), log, 2 * iteration, iteration + iteration * FixCap(cfg), iteration * ShellCap(cfg))
        invariant Corrections(log.phase) == iteration && (log.phase.Before? || log.phase.Fixing?)
        invariant OnlyVerdicts(old(shelf), shelf)
      {
        OneMoreRound(iteration, Rounds(cfg), FixCap(cfg));
        OneMoreRound(iteration, Rounds(cfg), ShellCap(cfg));
        var outcome :- Iterate(c, iteration >= cfg.maxAcceptance);
        if outcome.Some? {
          return Ok(outcome.value);
        }
      }
      return Raised(WorkflowError);
    }

    // -------------------------------------------------------------- the steps of _run, in order

    /** Create a worktree where none is, and record it; git or the storage may fail before, between or after. */
    method CreateWorktree() returns (r: Result<()>)
      requires Valid() && !onDisk
      modifies `onDisk, `tree, `artifacts, `shelf, `created
      ensures Valid() && shelf.(worktree := true) == old(shelf).(worktree := true)
      ensures r.Ok? ==> onDisk && shelf.worktree && artifacts == old(artifacts) + [WorktreeArtifact]
      ensures r.Raised? ==> r.error == WorkflowError
    {
      var _ :- ReadRepository();
      onDisk, tree, created := true, *, created + 1;
      var _ :- ReadRepository();
      AddArtifact(WorktreeArtifact);
      return Ok(());
    }

    /** The optional copy of the source's uncommitted changes into a new worktree, recorded afterwards. */
    method TakeSnapshot() returns (r: Result<()>)
      requires Stored()
      modifies `tree, `artifacts, `shelf
      ensures Stored() && shelf == old(shelf)
      ensures r.Ok? ==> artifacts == old(artifacts) + [SnapshotArtifact]
      ensures r.Raised? ==> r.error == WorkflowError
    {
      tree := *;
      var _ :- ReadRepository();
      AddArtifact(SnapshotArtifact);
      return Ok(());
    }

    /**
     * What only the first worktree of a task gets: a sync needs it at the source's HEAD (`atHead`), and the
     * local changes may be copied into it.
     */
    method FirstWorktree(first: bool, atHead: bool) returns (r: Result<()>)
      requires Stored()
      modifies `tree, `artifacts, `shelf
      ensures Stored() && shelf == old(shelf)
      ensures r.Ok? ==> artifacts == old(artifacts) + if task.includeLocal && first then [SnapshotArtifact] else []
      ensures first && task.sync && !atHead ==> r.Raised? && artifacts == old(artifacts)
      ensures r.Raised? ==> r.error == WorkflowError
    {
      if first && task.sync && !atHead {
        return Raised(WorkflowError);
      }
      if task.includeLocal && first {
        var _ :- TakeSnapshot();
      }
      return Ok(());
    }

    /** Resume the stored worktree if its directory is there; otherwise create one and record it. */
    method OpenWorktree(values: Shelf) returns (r: Result<()>)
      requires Valid() && values == shelf
      modifies `onDisk, `tree, `artifacts, `shelf, `created
      ensures Valid() && shelf.(worktree := true) == old(shelf).(worktree := true)
      ensures r.Ok? ==> onDisk && shelf.worktree
      ensures values.worktree && old(onDisk) ==>
                r.Ok? && tree == old(tree) && shelf == old(shelf) && artifacts == old(artifacts)
      ensures r.Ok? && !(values.worktree && old(onDisk)) ==>
                artifacts == old(artifacts) + [WorktreeArtifact]
                             + if task.includeLocal && !values.worktree then [SnapshotArtifact] else []
      ensures r.Raised? && r.error == TaskCancelledError ==> row.cancelRequested
    {
      if values.worktree && onDisk {
        return Ok(());
      }
      if onDisk {
        return Raised(WorkflowError);
      }
      var _ :- CreateWorktree();
      var atHead: bool := *;
      r := FirstWorktree(!values.worktree, atHead);
    }

    method AskSpec(answer: Option<ProductSpec>) returns (r: Result<ProductSpec>)
      requires Stored() && !shelf.settled && Running() && log.late <= 2 && log.phase == Before(0)
      modifies `row, `log, `artifacts, `shelf
      ensures Stored() && Running()
      ensures old(row.cancelRequested) ==> row.cancelRequested && r.Raised? && log == old(log)
      ensures log.late <= (if r.Ok? then 1 else 2) && log.phase == Before(0)
      ensures AtMostWith(old(log), log, 1, 1, 0, 0)
      ensures row.cancelRequested || r == Answered(answer)
      ensures r.Ok? ==> answer == Some(r.value)
      ensures artifacts == if r.Ok? then old(artifacts) + [SpecArtifact(r.value)] else old(artifacts)
      ensures shelf == if r.Ok? then Place(old(shelf), SpecArtifact(r.value)) else old(shelf)
      ensures r.Ok? ==> log.products == old(log.products) + 1
      ensures r.Raised? && r.error == TaskCancelledError ==> row.cancelRequested
    {
      var _ :- Enter(Product);
      var spec :- Ask(answer);
      AddArtifact(SpecArtifact(spec));
      return Ok(spec);
    }

    method AskAssessment(spec: ProductSpec, answer: Option<Assessment>) returns (r: Result<bool>)
      requires Stored() && !shelf.settled && Running() && log.late <= 1 && log.phase == Before(0)
      requires shelf.spec == Some(spec)
      modifies `row, `log, `artifacts, `shelf
      ensures Stored() && Running() && (old(row.cancelRequested) ==> row.cancelRequested)
      ensures log.late <= 2 && log.phase == Before(0) && AtMost(old(log), log, 1, 0, 0)
      ensures r == RoundAnswer(Some(spec), answer, cfg.threshold)
      ensures r.Ok? ==> (r.value <==> spec.ready && answer.value.approved && answer.value.score >= cfg.threshold)
      ensures artifacts ==
              if r.Ok? then old(artifacts) + [AssessmentArtifact(answer.value, r.value)] else old(artifacts)
      ensures shelf == if r.Ok? then Place(old(shelf), AssessmentArtifact(answer.value, r.value)) else old(shelf)
      ensures r.Raised? && r.error == TaskCancelledError ==> row.cancelRequested
    {
      var assessment :- Ask(answer);
      var aligned := spec.ready && assessment.approved && assessment.score >= cfg.threshold;
      AddArtifact(AssessmentArtifact(assessment, aligned));
      return Ok(aligned);
    }

    /** One round of the alignment loop; true if specification and assessment pass. */
    method AlignOnce(spec: Option<ProductSpec>, assessment: Option<Assessment>) returns (r: Result<bool>)
      requires Stored() && !shelf.settled && Running() && log.late <= 2 && log.phase == Before(0)
      modifies `row, `log, `artifacts, `shelf
      ensures Stored() && Running()
      ensures old(row.cancelRequested) ==> row.cancelRequested && r.Raised? && log == old(log)
      ensures log.late <= 2 && log.phase == Before(0) && AtMostWith(old(log), log, 1, 2, 0, 0)
      ensures OnlyAlignment(old(shelf), shelf)
      ensures shelf.settled <==> r.Ok? && r.value
      ensures row.cancelRequested || RoundStores(old(artifacts), artifacts, spec, assessment, cfg.threshold)
      ensures row.cancelRequested || r == RoundAnswer(spec, assessment, cfg.threshold)
      ensures r.Ok? ==> log.products == old(log.products) + 1
      ensures r.Raised? && r.error == TaskCancelledError ==> row.cancelRequested
    {
      var product :- AskSpec(spec);
      r := AskAssessment(product, assessment);
    }

    /** _align_product_requirement: specification and assessment in turn until they pass, at most maxProduct rounds. */
    method AlignProductRequirement() returns (r: Result<()>, ghost broke: bool)
      requires Stored() && !shelf.settled && Running() && log.late <= 2 && log.phase == Before(0)
      modifies `row, `log, `artifacts, `shelf
      ensures Stored() && Running()
      ensures old(row.cancelRequested) ==> row.cancelRequested && r.Raised? && log == old(log)
      ensures log.late <= 2 && log.phase == Before(0)
      ensures AtMostWith(old(log), log, Max(0, cfg.maxProduct), 2 * Max(0, cfg.maxProduct), 0, 0)
      ensures OnlyAlignment(old(shelf), shelf)
      ensures r.Ok? <==> shelf.settled
      ensures r.Raised? && r.error == TaskCancelledError ==> row.cancelRequested
      ensures r.Raised? && r.error == WorkflowError && !broke ==>
                log.products == old(log.products) + Max(0, cfg.maxProduct)
    {
      broke := false;
      for iteration := 1 to Max(0, cfg.maxProduct) + 1
        invariant Stored() && !shelf.settled && Running()
        invariant old(row.cancelRequested) ==> row.cancelRequested && log == old(log)
        invariant log.late <= 2 && log.phase == Before(0)
        invariant log.products == old(log.products) + iteration - 1
        invariant AtMostWith(old(log), log, iteration - 1, 2 * (iteration - 1), 0, 0)
        invariant OnlyAlignment(old(shelf), shelf)
      {
        var spec: Option<ProductSpec>, assessment: Option<Assessment> := *, *;
        broke := true;
        var aligned :- AlignOnce(spec, assessment);
        broke := false;
        if aligned {
          return Ok(()), false;
        }
        var _ :- CheckCancelled();
      }
      return Raised(WorkflowError), false;
    }

    method AskPlan() returns (r: Result<PlanOutput>)
      requires Stored() && Running() && log.late <= 2 && log.phase == Before(0) && shelf.plan.None?
      modifies `row, `log, `artifacts, `shelf
      ensures Stored() && Running()
      ensures old(row.cancelRequested) ==> row.cancelRequested && r.Raised? && log == old(log)
      ensures log.late <= 2 && log.phase.Before? && log.phase.rank <= 1 && AtMost(old(log), log, 1, 0, 0)
      ensures shelf == if r.Ok? then Place(old(shelf), PlanArtifact(r.value)) else old(shelf)
      ensures r.Raised? && r.error == TaskCancelledError ==> row.cancelRequested
    {
      var _ :- Enter(Planner);
      var answer: Option<PlanOutput> := *;
      var plan :- Ask(answer);
      AddArtifact(PlanArtifact(plan));
      return Ok(plan);
    }

    /** The plan, stored or new. */
    method MakePlan(values: Shelf) returns (r: Result<PlanOutput>)
      requires Stored() && Running() && log.late <= 2 && log.phase == Before(0) && values.plan == shelf.plan
      modifies `row, `log, `artifacts, `shelf
      ensures Stored() && Running()
      ensures old(row.cancelRequested) ==> row.cancelRequested && r.Raised? && log == old(log)
      ensures log.late <= 2 && log.phase.Before? && log.phase.rank <= 1 && AtMost(old(log), log, 1, 0, 0)
      ensures shelf.(plan := None) == old(shelf).(plan := None)
      ensures r.Ok? ==> shelf.plan == Some(r.value)
      ensures values.plan.Some? ==> log == old(log) && shelf == old(shelf) && artifacts == old(artifacts)
      ensures r.Raised? && r.error == TaskCancelledError ==> row.cancelRequested
    {
      var plan: PlanOutput;
      if values.plan.Some? {
        plan := values.plan.value;
      } else {
        plan :- AskPlan();
      }
      var _ :- CheckCancelled();
      return Ok(plan);
    }

    method AskReading() returns (r: Result<()>)
      requires Stored() && Running() && log.late <= 2 && log.phase.Before? && log.phase.rank <= 1 && !shelf.reading
      modifies `row, `log, `artifacts, `shelf
      ensures Stored() && Running() && (old(row.cancelRequested) ==> row.cancelRequested)
      ensures log.late <= 2 && log.phase.Before? && log.phase.rank <= 2 && AtMost(old(log), log, 1, 0, 0)
      ensures shelf == if r.Ok? then Place(old(shelf), ReadingArtifact) else old(shelf)
      ensures r.Raised? && r.error == TaskCancelledError ==> row.cancelRequested
    {
      var _ :- Enter(Reader);
      var answer: Option<nat> := *;
      var _ :- Ask(answer);
      AddArtifact(ReadingArtifact);
      return Ok(());
    }

    /** The reading of the repository context, stored or new. */
    method ReadContext(values: Shelf) returns (r: Result<()>)
      requires Stored() && Running() && log.late <= 2 && values.reading == shelf.reading
      requires log.phase.Before? && log.phase.rank <= 1
      modifies `row, `log, `artifacts, `shelf
      ensures Stored() && Running() && (old(row.cancelRequested) ==> row.cancelRequested)
      ensures log.late <= 2 && log.phase.Before? && log.phase.rank <= 2 && AtMost(old(log), log, 1, 0, 0)
      ensures shelf.(reading := true) == old(shelf).(reading := true)
      ensures r.Ok? ==> shelf.reading
      ensures values.reading ==> log == old(log) && shelf == old(shelf) && artifacts == old(artifacts)
      ensures r.Raised? && r.error == TaskCancelledError ==> row.cancelRequested
    {
      var _ :- ReadRepository();
      if !values.reading {
        var _ :- AskReading();
      }
      var _ :- CheckCancelled();
      return Ok(());
    }

    method AskDesign() returns (r: Result<Text>)
      requires Stored() && Running() && log.late <= 2 && shelf.design.Blank?
      requires log.phase.Before? && log.phase.rank <= 2
      modifies `row, `log, `artifacts, `shelf
      ensures Stored() && Running() && (old(row.cancelRequested) ==> row.cancelRequested)
      ensures log.late <= 2 && log.phase.Before? && log.phase.rank <= 3 && AtMost(old(log), log, 1, 0, 0)
      ensures shelf == if r.Ok? then Place(old(shelf), DesignArtifact(r.value)) else old(shelf)
      ensures r.Raised? && r.error == TaskCancelledError ==> row.cancelRequested
    {
      var _ :- Enter(Design);
      var answer: Option<Text> := *;
      var text :- Ask(answer);
      AddArtifact(DesignArtifact(text));
      return Ok(text);
    }

    /** The design, stored or new; an empty stored design is asked for again. */
    method MakeDesign(values: Shelf) returns (r: Result<()>)
      requires Stored() && Running() && log.late <= 2 && values.design == shelf.design
      requires log.phase.Before? && log.phase.rank <= 2
      modifies `row, `log, `artifacts, `shelf
      ensures Stored() && Running() && (old(row.cancelRequested) ==> row.cancelRequested)
      ensures log.late <= 2 && log.phase.Before? && log.phase.rank <= 3 && AtMost(old(log), log, 1, 0, 0)
      ensures !values.design.Blank? ==> r.Ok? && log == old(log) && artifacts == old(artifacts)
      ensures shelf ==
              if r.Ok? && values.design.Blank? then Place(old(shelf), DesignArtifact(shelf.design)) else old(shelf)
      ensures r.Raised? && r.error == TaskCancelledError ==> row.cancelRequested
    {
      if values.design.Blank? {
        var _ :- AskDesign();
      }
      return Ok(());
    }

    method AskCode() returns (r: Result<()>)
      requires Stored() && Running() && log.late <= 2 && !shelf.code
      requires log.phase.Before? && log.phase.rank <= 3
      modifies `row, `log, `tree, `artifacts, `shelf
      ensures Stored() && Running() && (old(row.cancelRequested) ==> row.cancelRequested)
      ensures log.late <= 2 && log.phase.Before? && AtMost(old(log), log, 0, 1, 0)
      ensures shelf == if r.Ok? then Place(old(shelf), CodeArtifact(true)) else old(shelf)
      ensures r.Raised? && r.error == TaskCancelledError ==> row.cancelRequested
    {
      var _ :- Enter(Coder);
      var code :- AskCoder();
      var _ :- ApplyCode(code);
      AddArtifact(CodeArtifact(true));
      return Ok(());
    }

    /** The first code change, unless some code change is stored. */
    method WriteCode(values: Shelf) returns (r: Result<()>)
      requires Stored() && Running() && log.late <= 2 && values.code == shelf.code
      requires log.phase.Before? && log.phase.rank <= 3
      modifies `row, `log, `tree, `artifacts, `shelf
      ensures Stored() && Running() && (old(row.cancelRequested) ==> row.cancelRequested)
      ensures log.late <= 2 && log.phase.Before? && AtMost(old(log), log, 0, 1, 0)
      ensures shelf.(code := true) == old(shelf).(code := true)
      ensures r.Ok? ==> shelf.code
      ensures values.code ==> log == old(log) && tree == old(tree) && shelf == old(shelf) && artifacts == old(artifacts)
      ensures r.Raised? && r.error == TaskCancelledError ==> row.cancelRequested
    {
      if !values.code {
        var _ :- AskCode();
      }
      var _ :- CheckCancelled();
      return Ok(());
    }

    /** A sync is due: it is wanted, none is recorded, and every gate has accepted the diff. */
    ghost predicate SyncDue(values: Shelf, accepted: bool) {
      task.sync && !values.synced && accepted
    }

    /** Apply the worktree's diff to the source repository if that is due, and record it; `sync` says how this ends. */
    method SyncSource(values: Shelf, accepted: bool, sync: SyncEnd) returns (r: Result<()>)
      requires Valid() && values.synced == shelf.synced
      modifies `source, `artifacts, `shelf, `unrecorded, `log
      ensures Valid()
      ensures log == old(log).(declined := old(log.declined) || (SyncDue(values, accepted) && sync.Declined?))
      ensures r.Raised? <==> SyncDue(values, accepted) && (sync.Fails? || sync.Unrecorded?)
      ensures source == if SyncDue(values, accepted) && (sync.Unrecorded? || sync.Recorded?)
                        then old(source) + [DiffOf(tree)] else old(source)
      ensures shelf ==
              if SyncDue(values, accepted) && sync.Recorded? then Place(old(shelf), SyncArtifact) else old(shelf)
      ensures unrecorded == old(unrecorded) + if SyncDue(values, accepted) && sync.Unrecorded? then 1 else 0
      ensures r.Ok? && task.sync && accepted ==> shelf.synced || log.declined
      ensures r.Raised? ==> r.error == WorkflowError
    {
      if !(task.sync && !values.synced && accepted) {
        return Ok(());
      }
      match sync {
        case Declined => log := log.(declined := true);
        case Fails => return Raised(WorkflowError);
        case Unrecorded =>
          source, unrecorded := source + [DiffOf(tree)], unrecorded + 1;
          return Raised(WorkflowError);
        case Recorded =>
          source := source + [DiffOf(tree)];
          AddArtifact(SyncArtifact);
      }
      return Ok(());
    }

    /** From the requirement to the plan, skipping whatever an earlier run has stored. */
    method AgreeAndPlan(values: Shelf) returns (r: Result<PlanOutput>)
      requires Stored() && Running() && log == NEW_LOG && values.(worktree := true) == shelf.(worktree := true)
      requires !Resumable(values, cfg.threshold) ==> !shelf.settled
      modifies `row, `log, `artifacts, `shelf
      ensures Stored() && Running()
      ensures old(row.cancelRequested) ==> row.cancelRequested && r.Raised? && log == old(log)
      ensures log.late <= 2 && log.phase.Before? && log.phase.rank <= 1
      ensures AtMostWith(old(log), log, Max(0, cfg.maxProduct), 2 * Max(0, cfg.maxProduct) + 1, 0, 0)
      ensures SameBuild(old(shelf), shelf)
      ensures r.Ok? ==> shelf.plan == Some(r.value)
      ensures r.Raised? && r.error == TaskCancelledError ==> row.cancelRequested
    {
      if !Resumable(values, cfg.threshold) {
        var _, broke :- AlignProductRequirement();
      }
      r := MakePlan(values);
    }

    /** The reading of the repository and the design. */
    method ReadAndDesign(values: Shelf) returns (r: Result<()>)
      requires Stored() && Running() && log.late <= 2
      requires values.reading == shelf.reading && values.design == shelf.design
      requires log.phase.Before? && log.phase.rank <= 1
      modifies `row, `log, `artifacts, `shelf
      ensures Stored() && Running() && (old(row.cancelRequested) ==> row.cancelRequested)
      ensures log.late <= 2 && log.phase.Before? && log.phase.rank <= 3 && AtMost(old(log), log, 2, 0, 0)
      ensures shelf.synced == old(shelf.synced) && shelf.code == old(shelf.code) && shelf.plan == old(shelf.plan)
      ensures r.Raised? && r.error == TaskCancelledError ==> row.cancelRequested
    {
      var _ :- ReadContext(values);
      r := MakeDesign(values);
    }

    /** From the plan to the first code change. */
    method DesignAndCode(values: Shelf) returns (r: Result<()>)
      requires Stored() && Running() && log.late <= 2 && SameBuild(values, shelf)
      requires log.phase.Before? && log.phase.rank <= 1
      modifies `row, `log, `tree, `artifacts, `shelf
      ensures Stored() && Running() && (old(row.cancelRequested) ==> row.cancelRequested)
      ensures log.late <= 2 && log.phase.Before? && AtMost(old(log), log, 2, 1, 0)
      ensures shelf.synced == old(shelf.synced)
      ensures r.Ok? ==> shelf.code
      ensures shelf.plan == old(shelf.plan)
      ensures r.Raised? && r.error == TaskCancelledError ==> row.cancelRequested
    {
      var _ :- ReadAndDesign(values);
      r := WriteCode(values);
    }

    method Develop(values: Shelf) returns (r: Result<PlanOutput>)
      requires Stored() && Running() && log == NEW_LOG && values.(worktree := true) == shelf.(worktree := true)
      requires !Resumable(values, cfg.threshold) ==> !shelf.settled
      modifies `row, `log, `tree, `artifacts, `shelf
      ensures Stored() && Running()
      ensures old(row.cancelRequested) ==> row.cancelRequested && r.Raised? && log == old(log)
      ensures log.late <= 2 && log.phase.Before?
      ensures AtMostWith(old(log), log, Max(0, cfg.maxProduct), 2 * Max(0, cfg.maxProduct) + 3, 1, 0)
      ensures shelf.synced == old(shelf.synced)
      ensures r.Ok? ==> shelf.code
      ensures r.Ok? ==> shelf.plan == Some(r.value)
      ensures r.Raised? && r.error == TaskCancelledError ==> row.cancelRequested
    {
      var plan :- AgreeAndPlan(values);
      var _ :- DesignAndCode(values);
      return Ok(plan);
    }

    /** The optional commit of an accepted diff that is not synced. */
    method Commit(accepted: bool) returns (r: Result<()>)
      requires Stored()
      modifies `artifacts, `shelf
      ensures Stored() && shelf == old(shelf)
      ensures r.Ok? ==>
                artifacts == old(artifacts) + if task.autoCommit && accepted && !task.sync then [CommitArtifact] else []
      ensures r.Raised? && r.error == TaskCancelledError ==> row.cancelRequested
    {
      if task.autoCommit && accepted && !task.sync {
        var _ :- ReadRepository();
        AddArtifact(CommitArtifact);
      }
      return Ok(());
    }

    /** The delivery record, the last stage, and the optional commit. */
    method Deliver(accepted: bool) returns (r: Result<()>)
      requires Stored() && Running() && log.late <= 2 && log.phase.Judging?
      modifies `row, `log, `artifacts, `shelf
      ensures Stored() && Running() && (old(row.cancelRequested) ==> row.cancelRequested) && shelf == old(shelf)
      ensures log.late <= 2 && OnlyStages(old(log), log)
      ensures Corrections(log.phase) == Corrections(old(log.phase))
      ensures r.Ok? ==> log.phase.Delivered? && row.status == WaitingApproval && row.progress == 100
      ensures r.Ok? ==>
                artifacts == old(artifacts) + [DeliveryArtifact]
                             + if task.autoCommit && accepted && !task.sync then [CommitArtifact] else []
      ensures r.Raised? && r.error == TaskCancelledError ==> row.cancelRequested
    {
      AddArtifact(DeliveryArtifact);
      var _ :- Enter(Delivery);
      var _ :- Commit(accepted);
      row := row.(status := WaitingApproval, stage := Some(Delivery), progress := 100);
      return Ok(());
    }

    /** The sync, whichever way it ends. */
    method TrySync(values: Shelf, accepted: bool) returns (r: Result<()>)
      requires Valid() && values.synced == shelf.synced
      modifies `source, `artifacts, `shelf, `unrecorded, `log
      ensures Valid() && log == old(log).(declined := log.declined)
      ensures shelf.plan == old(shelf.plan) && shelf.verdicts == old(shelf.verdicts)
      ensures r.Ok? && task.sync && accepted ==> shelf.synced || log.declined
      ensures source == old(source) || (task.sync && accepted && source == old(source) + [DiffOf(tree)])
      ensures unrecorded == old(unrecorded) || (r.Raised? && unrecorded == old(unrecorded) + 1)
      ensures r.Raised? ==> r.error == WorkflowError
    {
      var _ :- ReadRepository();
      var sync: SyncEnd := *;
      r := SyncSource(values, accepted, sync);
    }

    /** The sync of an accepted diff, and delivery. */
    method SyncAndDeliver(values: Shelf, accepted: bool) returns (r: Result<()>)
      requires Valid() && Running() && log.late <= 2 && log.phase.Judging? && values.synced == shelf.synced
      modifies `row, `log, `source, `artifacts, `shelf, `unrecorded
      ensures Valid() && Running() && (old(row.cancelRequested) ==> row.cancelRequested)
      ensures log.late <= 2 && Corrections(log.phase) == Corrections(old(log.phase))
      ensures OnlyStages(old(log).(declined := log.declined), log)
      ensures shelf.plan == old(shelf.plan) && shelf.verdicts == old(shelf.verdicts)
      ensures r.Ok? && task.sync && accepted ==> shelf.synced || log.declined
      ensures source == old(source) || (task.sync && accepted && source == old(source) + [DiffOf(tree)])
      ensures r.Ok? ==> log.phase.Delivered? && row.status == WaitingApproval && row.progress == 100
      ensures unrecorded == old(unrecorded) || (r.Raised? && unrecorded == old(unrecorded) + 1)
      ensures r.Raised? && r.error == TaskCancelledError ==> row.cancelRequested
    {
      var _ :- TrySync(values, accepted);
      ghost var synced := log;
      r := Deliver(accepted);
      StagesAfterSync(old(log), synced, log);
    }

    /** The acceptance loop, the sync of an accepted diff, and delivery: what reaches the source is vouched for. */
    method AcceptAndDeliver(values: Shelf, c: Commands) returns (r: Result<()>)
      requires Valid() && Running() && log.late <= 2 && shelf.code && log.phase.Before? && values.synced == shelf.synced
      modifies `row, `log, `tree, `source, `artifacts, `shelf, `unrecorded
      ensures Valid() && Running() && (old(row.cancelRequested) ==> row.cancelRequested)
      ensures log.late <= 2 && Corrections(log.phase) <= Max(0, cfg.maxAcceptance)
      ensures AtMost(old(log), log, 2 * Rounds(cfg), LoopCoderCap(cfg), Rounds(cfg) * ShellCap(cfg))
      ensures source != old(source) ==>
                task.sync && source == old(source) + [DiffOf(tree)]
                && Vouched(shelf.verdicts, tree, log, c, cfg.threshold)
      ensures r.Ok? ==> log.phase.Delivered? && row.status == WaitingApproval && row.progress == 100
      ensures unrecorded == old(unrecorded) || (r.Raised? && unrecorded == old(unrecorded) + 1)
      ensures r.Ok? && task.sync && log.accepted ==> shelf.synced || log.declined
      ensures shelf.plan == old(shelf.plan)
      ensures r.Raised? && r.error == TaskCancelledError ==> row.cancelRequested
    {
      var o :- AcceptanceLoop(c);
      ghost var judged, verdicts := log, shelf.verdicts;
      r := SyncAndDeliver(values, o.accepted);
      if o.accepted {
        AcceptedIsVouched(o, verdicts, tree, judged, log, c, cfg.threshold);
      }
    }

    /** What the task asks for, or else the plan, is run; only a command neither names may be detected. */
    predicate Resolves(command: Option<Command>, asked: Option<Command>, planned: Option<Command>) {
      && (asked.Some? ==> command == asked)
      && (asked.None? && planned.Some? ==> command == planned)
    }

    /** The commands of a run are those of the task and of the stored plan. */
    ghost predicate Configured(c: Commands)
      reads `shelf
    {
      && shelf.plan.Some? && c.run == shelf.plan.value.run
      && Resolves(c.build, task.build, shelf.plan.value.build) && Resolves(c.test, task.test, shelf.plan.value.test)
    }

    /** Everything after the worktree: development, the resolved commands, acceptance and delivery. */
    method Proceed(values: Shelf) returns (r: Result<()>, ghost c: Commands)
      requires Valid() && Running() && log == NEW_LOG && values.(worktree := true) == shelf.(worktree := true)
      requires !Resumable(values, cfg.threshold) ==> !shelf.settled
      modifies `row, `log, `tree, `source, `artifacts, `shelf, `unrecorded
      ensures Valid() && Running() && (old(row.cancelRequested) ==> row.cancelRequested)
      ensures log.late <= 2 && Corrections(log.phase) <= Max(0, cfg.maxAcceptance)
      ensures AtMostWith(NEW_LOG, log, Max(0, cfg.maxProduct), AgentCap(cfg), 1 + LoopCoderCap(cfg),
                         Rounds(cfg) * ShellCap(cfg))
      ensures old(row.cancelRequested) ==> r.Raised? && log == NEW_LOG && source == old(source)
      ensures source != old(source) ==>
                task.sync && source == old(source) + [DiffOf(tree)]
                && Vouched(shelf.verdicts, tree, log, c, cfg.threshold)
      ensures r.Ok? ==> log.phase.Delivered? && row.status == WaitingApproval && row.progress == 100
      ensures unrecorded == old(unrecorded) || (r.Raised? && unrecorded == old(unrecorded) + 1)
      ensures r.Ok? && task.sync && log.accepted ==> shelf.synced || log.declined
      ensures r.Ok? || source != old(source) ==> Configured(c)
      ensures r.Raised? && r.error == TaskCancelledError ==> row.cancelRequested
    {
      c := Commands(None, None, None);
      var _ :- ReadRepository();
      var plan :- Develop(values);
      var detectedBuild: Option<Command>, detectedTest: Option<Command> := *, *;
      var commands :=
        Commands(Or(task.build, Or(plan.build, detectedBuild)), Or(task.test, Or(plan.test, detectedTest)), plan.run);
      c := commands;
      r := AcceptAndDeliver(values, commands);
    }

    /** _run, up to the exception handler; c are the commands the run resolved. */
    method Run() returns (r: Result<()>, ghost c: Commands)
      requires Valid()
      modifies this
      ensures Valid() && Running() && (old(row.cancelRequested) ==> row.cancelRequested)
      ensures log.late <= 2 && Corrections(log.phase) <= Max(0, cfg.maxAcceptance)
      ensures log.coder <= 1 + LoopCoderCap(cfg) && log.shell <= Rounds(cfg) * ShellCap(cfg)
      ensures log.products <= Max(0, cfg.maxProduct) && log.agents <= AgentCap(cfg)
      ensures old(row.cancelRequested) ==> r.Raised? && log == NEW_LOG && source == old(source)
      ensures source != old(source) ==>
                task.sync && source == old(source) + [DiffOf(tree)]
                && Vouched(shelf.verdicts, tree, log, c, cfg.threshold)
      ensures r.Ok? ==> log.phase.Delivered? && row.status == WaitingApproval && row.progress == 100
      ensures unrecorded == old(unrecorded) || (r.Raised? && unrecorded == old(unrecorded) + 1)
      ensures removed == old(removed)
      ensures r.Ok? && task.sync && log.accepted ==> shelf.synced || log.declined
      ensures r.Ok? || source != old(source) ==> Configured(c)
      ensures r.Raised? && r.error == TaskCancelledError ==> row.cancelRequested
    {
      c := Commands(None, None, None);
      row := row.(status := TaskStatus.Running);
      log := NEW_LOG;
      NothingEntered();
      var values := Filed(artifacts);
      HoldsIsFiled(artifacts, shelf, cfg.threshold);
      var _ :- OpenWorktree(values);
      r, c := Proceed(values);
    }

    /**
     * _run_guarded: one run of the task, from whatever an earlier run left. It ends in one of three statuses; its
     * stages are a prefix of the documented order with at most maxAcceptance corrections; no piece of stored work is
     * ever finished a second time, the source is patched once for the stored record and once for every run that ended
     * between patch and record, and a new worktree is made only for a removed one.
     */
    method RunGuarded() returns (ghost r: Result<()>, ghost c: Commands)
      requires Valid()
      modifies this
      ensures Valid() && (old(row.cancelRequested) ==> row.cancelRequested)
      ensures row.status == match r
                            case Ok(_) => WaitingApproval
                            case Raised(TaskCancelledError) => TaskStatus.Cancelled
                            case Raised(WorkflowError) => TaskStatus.Failed
      ensures row.status == TaskStatus.Cancelled ==> row.cancelRequested
      ensures WithinLanguage(log.trace, Max(0, cfg.maxAcceptance))
      ensures multiset(log.trace)[Product] <= Max(0, cfg.maxProduct)
      ensures log.agents <= AgentCap(cfg)
      ensures log.coder <= 1 + LoopCoderCap(cfg) && log.shell <= Rounds(cfg) * ShellCap(cfg)
      ensures log.late <= 2
      ensures old(row.cancelRequested) ==>
                row.status != WaitingApproval && log == NEW_LOG && source == old(source)
      ensures source != old(source) ==>
                task.sync && source == old(source) + [DiffOf(tree)]
                && Vouched(shelf.verdicts, tree, log, c, cfg.threshold)
      ensures shelf == Filed(artifacts) && forall w :: FinishedOnce(artifacts, w)
      ensures |source| == unrecorded + (if shelf.synced then 1 else 0)
      ensures unrecorded == old(unrecorded) || (row.status != WaitingApproval && unrecorded == old(unrecorded) + 1)
      ensures row.status == WaitingApproval && task.sync && log.accepted ==> shelf.synced || log.declined
      ensures r.Ok? || source != old(source) ==> Configured(c)
      ensures created <= 1 + removed && removed == old(removed)
    {
      var end;
      end, c := Run();
      r := end;
      if end.Raised? {
        row := row.(status := if end.error == TaskCancelledError then TaskStatus.Cancelled else TaskStatus.Failed);
      }
      TraceFacts(log, cfg);
      StoreFacts(artifacts, shelf, cfg.threshold);
    }
  }

  /** A first alignment round that does not pass, and the cancellation check after it. */
  method FailedAlignment(cfg: Limits, task: TaskOptions, row: TaskRow, draft: ProductSpec, verdict: Assessment)
    returns (e: WorkflowEngine)
    requires !draft.ready
    ensures fresh(e) && e.Stored() && e.Running() && e.cfg == cfg && e.log.late <= 2 && e.log.phase == Before(0)
    ensures !e.row.cancelRequested ==>
              !e.shelf.settled && e.artifacts == [SpecArtifact(draft)] + [AssessmentArtifact(verdict, false)]
  {
    e := new WorkflowEngine(cfg, task, row);
    var _ := e.AlignOnce(Some(draft), Some(verdict));
    var _ := e.CheckCancelled();
    if !e.row.cancelRequested {
      assert e.artifacts == [] + [SpecArtifact(draft)] + [AssessmentArtifact(verdict, false)];
      assert [] + [SpecArtifact(draft)] == [SpecArtifact(draft)];
    }
  }

  /** A sync whose run ends before its record is stored is made again by the next one. */
  method SyncedTwice(e: WorkflowEngine)
    requires e.Valid() && e.task.sync && !e.shelf.synced
    modifies e
    ensures e.Valid() && e.shelf.synced && e.unrecorded == old(e.unrecorded) + 1
    ensures e.source == old(e.source) + [DiffOf(e.tree), DiffOf(e.tree)]
  {
    HoldsIsFiled(e.artifacts, e.shelf, e.cfg.threshold);
    var _ := e.SyncSource(Filed(e.artifacts), true, Unrecorded);
    HoldsIsFiled(e.artifacts, e.shelf, e.cfg.threshold);
    var _ := e.SyncSource(Filed(e.artifacts), true, Recorded);
    assert [DiffOf(e.tree)] + [DiffOf(e.tree)] == [DiffOf(e.tree), DiffOf(e.tree)];
  }

  lemma CutOffFacts(artifacts: seq<Artifact>, s: Shelf, draft: ProductSpec, verdict: Assessment, revised: ProductSpec,
                    threshold: int)
    requires Holds(artifacts, s, threshold) && Aligned(revised, verdict, threshold)
    requires artifacts == [SpecArtifact(draft)] + [AssessmentArtifact(verdict, false)] + [SpecArtifact(revised)]
    ensures Resumable(s, threshold) && !s.settled && !AssessedLast(artifacts)
  {
    HoldsIsFiled(artifacts, s, threshold);
    var a, b := SpecArtifact(draft), AssessmentArtifact(verdict, false);
    assert artifacts[..2] == [a] + [b] && ([a] + [b])[..1] == [a] && [a][..0] == [];
    assert Filed([a]) == Place(BARE, a);
    assert Filed([a] + [b]) == Place(Place(BARE, a), b);
    ResumedIsAlignedIff(artifacts, s, threshold);
  }

  /**
   * Two alignment rounds of one run, the second cut off because the assessment call fails: unless the user cancels
   * meanwhile, what is left is resumable although no alignment has ever succeeded.
   */
  method CutOffAlignment(cfg: Limits, task: TaskOptions, row: TaskRow, draft: ProductSpec, verdict: Assessment,
                         revised: ProductSpec) returns (e: WorkflowEngine)
    requires !draft.ready && Aligned(revised, verdict, cfg.threshold)
    ensures e.Stored() && e.cfg == cfg
    ensures !e.row.cancelRequested ==>
              && e.artifacts == [SpecArtifact(draft)] + [AssessmentArtifact(verdict, false)] + [SpecArtifact(revised)]
              && Resumable(e.shelf, cfg.threshold) && !e.shelf.settled && !AssessedLast(e.artifacts)
  {
    e := FailedAlignment(cfg, task, row, draft, verdict);
    if !e.row.cancelRequested {
      var _ := e.AlignOnce(Some(revised), None);
    }
    if !e.row.cancelRequested {
      CutOffFacts(e.artifacts, e.shelf, draft, verdict, revised, cfg.threshold);
    }
  }
}

/**
 Paired evaluation: two runners answer every case of a dataset, the rubric scores both, and a report
 counts how each side did and which side won.
 */
module Evaluation {
  import opened Wrappers
  import opened Clock
  import opened Observations
  import opened Rubric
  import opened Telemetry

  /** A case with no expected cause asks for an abstention. */
  datatype Case = Case(id: string, split: string, evidence: seq<Evidence>, cause: Code, handle: string)

  datatype Output = Output(conclusion: Option<Conclusion>, errorCode: string, latency: Option<real>, usage: Option<Usage>)

  datatype Dataset = Dataset(version: string, at: Time, cases: seq<Case>, hash: string)

  /** Which names are valid, whether an encoded dataset can be decoded strictly, and the digest of a dataset. */
  datatype Loading = Loading(validId: string -> bool, reloads: Dataset -> bool, digest: Dataset -> string)

  datatype Outcome = Failed | Judged(status: Status)

  datatype Score = Score(correct: bool, outcome: Outcome, errorCode: string, latency: Option<real>, usage: Option<Usage>)

  datatype Pair = Pair(id: string, split: string, positive: bool, baseline: Score, candidate: Score)

  datatype Side = Baseline | Candidate

  predicate Positive(c: Case) {
    c.cause != OtherCode("")
  }

  function ScoreOutput(o: Output, c: Case, at: Time): Score {
    var failed := Score(false, Failed, o.errorCode, o.latency, o.usage);
    if o.errorCode != "" || o.conclusion.None? then failed
    else
      match Assess(o.conclusion.value, c.evidence, at)
      case Err(_) => failed.(errorCode := "INVALID_OUTPUT")
      case Ok(a) =>
        var correct :=
          if Positive(c) then a.status == Hypothesis && o.conclusion.value.code == c.cause && o.conclusion.value.handle == c.handle
          else a.status == NeedsEvidence || a.status == Inconclusive;
        failed.(correct := correct, outcome := Judged(a.status))
  }

  /** What a runner says of a case, by its position in the dataset. */
  type Runner = nat -> Output

  function PairOf(c: Case, i: nat, baseline: Runner, candidate: Runner, at: Time): Pair {
    Pair(c.id, c.split, Positive(c), ScoreOutput(baseline(i), c, at), ScoreOutput(candidate(i), c, at))
  }

  /** How the case at a position is scored on both sides. */
  type Scorer = (Case, nat) -> Pair

  function Scoring(baseline: Runner, candidate: Runner, at: Time): Scorer {
    (c: Case, i: nat) => PairOf(c, i, baseline, candidate, at)
  }

  // ---------------------------------------------------------------- counting

  function Of(p: Pair, side: Side): Score {
    if side.Baseline? then p.baseline else p.candidate
  }

  function Other(side: Side): Side {
    if side.Baseline? then Candidate else Baseline
  }

  datatype Kind =
    | Every | Right | Errored | PositiveCase | PositiveRight | NegativeCase | NegativeRight | FalsePositive | NegativeError
    | Timed | Metered | Won | Tied | Differ | EitherRight | NegativeWrong

  /** Whether a pair is of a kind, from one side. */
  predicate Is(kind: Kind, p: Pair, side: Side) {
    var s := Of(p, side);
    match kind
    case Every => true
    case Right => s.correct
    case Errored => s.outcome == Failed
    case PositiveCase => p.positive
    case PositiveRight => p.positive && s.correct
    case NegativeCase => !p.positive
    case NegativeRight => !p.positive && s.correct
    case FalsePositive => !p.positive && s.outcome == Judged(Hypothesis)
    case NegativeError => !p.positive && s.outcome == Failed
    case Timed => s.latency.Some?
    case Metered => s.usage.Some?
    case Won => s.correct && !Of(p, Other(side)).correct
    case Tied => s.correct == Of(p, Other(side)).correct
    case Differ => s.correct != Of(p, Other(side)).correct
    case NegativeWrong => !p.positive && !s.correct
    case EitherRight => s.correct || Of(p, Other(side)).correct
  }

  function Count(pairs: seq<Pair>, kind: Kind, side: Side): nat {
    if pairs == [] then 0
    else Count(pairs[..|pairs| - 1], kind, side) + (if Is(kind, pairs[|pairs| - 1], side) then 1 else 0)
  }

  function TotalLatency(pairs: seq<Pair>, side: Side): real {
    if pairs == [] then 0.0
    else
      TotalLatency(pairs[..|pairs| - 1], side) +
      (match Of(pairs[|pairs| - 1], side).latency case None => 0.0 case Some(l) => l)
  }

  function Add(u: Usage, v: Option<Usage>): Usage {
    match v
    case None => u
    case Some(w) => Usage(u.input + w.input, u.output + w.output, u.total + w.total)
  }

  function TotalUsage(pairs: seq<Pair>, side: Side): Usage {
    if pairs == [] then Usage(0, 0, 0)
    else Add(TotalUsage(pairs[..|pairs| - 1], side), Of(pairs[|pairs| - 1], side).usage)
  }

  // ---------------------------------------------------------------- the report

  /** One side's counters. */
  datatype Counts = Counts(
    calls: nat, correct: nat, errors: nat,
    positiveCases: nat, positiveCorrect: nat,
    negativeCases: nat, negativeCorrect: nat, falsePositives: nat,
    latencySamples: nat, totalLatency: real,
    usageSamples: nat, knownUsage: Usage
  )

  function CountsOf(pairs: seq<Pair>, side: Side): Counts {
    Counts(
      Count(pairs, Every, side), Count(pairs, Right, side), Count(pairs, Errored, side),
      Count(pairs, PositiveCase, side), Count(pairs, PositiveRight, side),
      Count(pairs, NegativeCase, side), Count(pairs, NegativeRight, side), Count(pairs, FalsePositive, side),
      Count(pairs, Timed, side), TotalLatency(pairs, side),
      Count(pairs, Metered, side), TotalUsage(pairs, side)
    )
  }

  function Bump(n: nat, yes: bool): nat {
    if yes then n + 1 else n
  }

  /** The counters after one more answer. */
  function Tally(c: Counts, s: Score, positive: bool): Counts {
    Counts(
      c.calls + 1, Bump(c.correct, s.correct), Bump(c.errors, s.outcome == Failed),
      Bump(c.positiveCases, positive), Bump(c.positiveCorrect, positive && s.correct),
      Bump(c.negativeCases, !positive), Bump(c.negativeCorrect, !positive && s.correct),
      Bump(c.falsePositives, !positive && s.outcome == Judged(Hypothesis)),
      Bump(c.latencySamples, s.latency.Some?), c.totalLatency + (match s.latency case None => 0.0 case Some(l) => l),
      Bump(c.usageSamples, s.usage.Some?), Add(c.knownUsage, s.usage)
    )
  }

  lemma CountStep(pairs: seq<Pair>, p: Pair, kind: Kind, side: Side)
    ensures Count(pairs + [p], kind, side) == Bump(Count(pairs, kind, side), Is(kind, p, side))
  {
    assert (pairs + [p])[..|pairs|] == pairs;
  }

  lemma TallyStep(pairs: seq<Pair>, p: Pair, side: Side)
    ensures CountsOf(pairs + [p], side) == Tally(CountsOf(pairs, side), Of(p, side), p.positive)
  {
    assert (pairs + [p])[..|pairs|] == pairs;
    CountStep(pairs, p, Every, side);
    CountStep(pairs, p, Right, side);
    CountStep(pairs, p, Errored, side);
    CountStep(pairs, p, PositiveCase, side);
    CountStep(pairs, p, PositiveRight, side);
    CountStep(pairs, p, NegativeCase, side);
    CountStep(pairs, p, NegativeRight, side);
    CountStep(pairs, p, FalsePositive, side);
    CountStep(pairs, p, Timed, side);
    CountStep(pairs, p, Metered, side);
  }

  const NOTHING := Counts(0, 0, 0, 0, 0, 0, 0, 0, 0, 0.0, 0, Usage(0, 0, 0))

  function TallyAll(pairs: seq<Pair>, side: Side): Counts {
    if pairs == [] then NOTHING
    else
      var last := pairs[|pairs| - 1];
      Tally(TallyAll(pairs[..|pairs| - 1], side), Of(last, side), last.positive)
  }

  /** Tallying one answer after another counts them all. */
  lemma {:induction false} TallyCounts(pairs: seq<Pair>, side: Side)
    ensures TallyAll(pairs, side) == CountsOf(pairs, side)
  {
    if pairs != [] {
      var front, last := pairs[..|pairs| - 1], pairs[|pairs| - 1];
      TallyCounts(front, side);
      assert pairs == front + [last];
      TallyStep(front, last, side);
    }
  }

  /** Wins of the candidate, wins of the baseline, and ties. */
  datatype Wins = Wins(candidate: nat, baseline: nat, ties: nat)

  function WinsOf(pairs: seq<Pair>): Wins {
    Wins(Count(pairs, Won, Candidate), Count(pairs, Won, Baseline), Count(pairs, Tied, Candidate))
  }

  function Decide(w: Wins, p: Pair): Wins {
    if p.baseline.correct == p.candidate.correct then w.(ties := w.ties + 1)
    else if p.candidate.correct then w.(candidate := w.candidate + 1)
    else w.(baseline := w.baseline + 1)
  }

  function DecideAll(pairs: seq<Pair>): Wins {
    if pairs == [] then Wins(0, 0, 0) else Decide(DecideAll(pairs[..|pairs| - 1]), pairs[|pairs| - 1])
  }

  lemma {:induction false} DecidedCounts(pairs: seq<Pair>)
    ensures DecideAll(pairs) == WinsOf(pairs)
  {
    if pairs != [] {
      DecidedCounts(pairs[..|pairs| - 1]);
    }
  }

  /** A summary, updated in place case by case. */
  class Summary {
    var calls: nat
    var correct: nat
    var errors: nat
    var positiveCases: nat
    var positiveCorrect: nat
    var negativeCases: nat
    var negativeCorrect: nat
    var falsePositives: nat
    var latencySamples: nat
    var totalLatency: real
    var usageSamples: nat
    var knownUsage: Usage

    function View(): Counts
      reads this
    {
      Counts(calls, correct, errors, positiveCases, positiveCorrect, negativeCases, negativeCorrect, falsePositives,
             latencySamples, totalLatency, usageSamples, knownUsage)
    }

    constructor ()
      ensures View() == NOTHING
    {
      calls, correct, errors := 0, 0, 0;
      positiveCases, positiveCorrect, negativeCases, negativeCorrect, falsePositives := 0, 0, 0, 0, 0;
      latencySamples, totalLatency, usageSamples, knownUsage := 0, 0.0, 0, Usage(0, 0, 0);
    }

    method CountCase(s: Score, positive: bool)
      modifies `positiveCases, `positiveCorrect, `negativeCases, `negativeCorrect, `falsePositives
      ensures positiveCases == Bump(old(positiveCases), positive)
      ensures positiveCorrect == Bump(old(positiveCorrect), positive && s.correct)
      ensures negativeCases == Bump(old(negativeCases), !positive)
      ensures negativeCorrect == Bump(old(negativeCorrect), !positive && s.correct)
      ensures falsePositives == Bump(old(falsePositives), !positive && s.outcome == Judged(Hypothesis))
    {
      if positive {
        positiveCases := positiveCases + 1;
        if s.correct {
          positiveCorrect := positiveCorrect + 1;
        }
      } else {
        negativeCases := negativeCases + 1;
        if s.correct {
          negativeCorrect := negativeCorrect + 1;
        }
        if s.outcome == Judged(Hypothesis) {
          falsePositives := falsePositives + 1;
        }
      }
    }

    method CountCost(s: Score)
      modifies `latencySamples, `totalLatency, `usageSamples, `knownUsage
      ensures latencySamples == Bump(old(latencySamples), s.latency.Some?)
      ensures totalLatency == old(totalLatency) + (match s.latency case None => 0.0 case Some(l) => l)
      ensures usageSamples == Bump(old(usageSamples), s.usage.Some?)
      ensures knownUsage == Add(old(knownUsage), s.usage)
    {
      if s.latency.Some? {
        latencySamples := latencySamples + 1;
        totalLatency := totalLatency + s.latency.value;
      }
      if s.usage.Some? {
        usageSamples := usageSamples + 1;
        knownUsage := Usage(knownUsage.input + s.usage.value.input, knownUsage.output + s.usage.value.output,
                            knownUsage.total + s.usage.value.total);
      }
    }

    /** Count one more answer. */
    method Accumulate(s: Score, positive: bool)
      modifies this
      ensures View() == Tally(old(View()), s, positive)
    {
      calls := calls + 1;
      if s.correct {
        correct := correct + 1;
      }
      if s.outcome == Failed {
        errors := errors + 1;
      }
      CountCase(s, positive);
      CountCost(s);
    }
  }

  datatype Report = Report(
    baseline: Counts, baselineUsage: Option<Usage>,
    candidate: Counts, candidateUsage: Option<Usage>,
    candidateWins: nat, baselineWins: nat, ties: nat,
    pairs: seq<Pair>
  )

  datatype EvaluationError = BadRequest | Cancelled

  predicate GoodItem(e: Evidence, ctx: Loading) {
    && ctx.validId(e.ref.id) && e.ref.version >= 1
    && ValidObservation(e.observation) && e.observation.source.None? && e.observation.target.None?
  }

  /** An abstention names no resource; a cause is one of three and names a resource. */
  predicate GoodExpectation(c: Case) {
    if Positive(c) then c.cause in {ResourcePressure, ConfigurationDrift, NetworkBlocked} && ValidHandle(c.handle)
    else c.handle == ""
  }

  predicate GoodCase(c: Case, ctx: Loading) {
    && ctx.validId(c.id) && c.split in {"baseline", "heldout"} && |c.evidence| <= 64
    && (forall i :: 0 <= i < |c.evidence| ==> GoodItem(c.evidence[i], ctx)) && DistinctRefs(c.evidence)
    && GoodExpectation(c)
  }

  predicate DistinctIds(cases: seq<Case>) {
    forall i, j :: 0 <= i < j < |cases| ==> cases[i].id != cases[j].id
  }

  /** Every case is good and has its own id. */
  predicate GoodCases(cases: seq<Case>, ctx: Loading) {
    (forall i :: 0 <= i < |cases| ==> GoodCase(cases[i], ctx)) && DistinctIds(cases)
  }

  predicate HasPositive(cases: seq<Case>) {
    exists i :: 0 <= i < |cases| && Positive(cases[i])
  }

  predicate HasNegative(cases: seq<Case>) {
    exists i :: 0 <= i < |cases| && !Positive(cases[i])
  }

  /** Every case is good, no id repeats, and there are cases of both kinds, under the dataset's own hash. */
  predicate ValidDataset(d: Dataset, ctx: Loading) {
    && ctx.reloads(d) && ctx.validId(d.version) && d.at != 0 && 2 <= |d.cases| <= 256
    && GoodCases(d.cases, ctx) && HasPositive(d.cases) && HasNegative(d.cases)
    && d.hash == ctx.digest(d)
  }

  method ValidateEvidence(evidence: seq<Evidence>, ctx: Loading) returns (ok: bool)
    ensures ok <==> (forall i :: 0 <= i < |evidence| ==> GoodItem(evidence[i], ctx)) && DistinctRefs(evidence)
  {
    var refs: set<ItemRef> := {};
    for i := 0 to |evidence|
      invariant forall r :: r in refs <==> exists j :: 0 <= j < i && evidence[j].ref == r
      invariant forall j :: 0 <= j < i ==> GoodItem(evidence[j], ctx)
      invariant forall j, k :: 0 <= j < k < i ==> evidence[j].ref != evidence[k].ref
    {
      var e := evidence[i];
      if !GoodItem(e, ctx) || e.ref in refs {
        return false;
      }
      refs := refs + {e.ref};
    }
    ok := true;
  }

  method ValidateCase(c: Case, ctx: Loading) returns (good: bool)
    ensures good <==> GoodCase(c, ctx)
  {
    if !ctx.validId(c.id) || (c.split != "baseline" && c.split != "heldout") || |c.evidence| > 64 {
      return false;
    }
    var sound := ValidateEvidence(c.evidence, ctx);
    if !sound {
      return false;
    }
    match c.cause {
      case OtherCode(text) => good := text == "" && c.handle == "";
      case ResourcePressure => good := ValidHandle(c.handle);
      case ConfigurationDrift => good := ValidHandle(c.handle);
      case NetworkBlocked => good := ValidHandle(c.handle);
      case _ => good := false;
    }
  }

  function IdsOf(cases: seq<Case>): set<string> {
    set c | c in cases :: c.id
  }

  lemma CasesSnoc(cases: seq<Case>, c: Case, ctx: Loading)
    requires GoodCases(cases, ctx)
    ensures IdsOf(cases + [c]) == IdsOf(cases) + {c.id}
    ensures GoodCases(cases + [c], ctx) <==> c.id !in IdsOf(cases) && GoodCase(c, ctx)
  {
    var all := cases + [c];
    assert forall x :: x in all <==> x in cases || x == c;
    if c.id in IdsOf(cases) {
      var j :| 0 <= j < |cases| && cases[j].id == c.id;
      assert all[j].id == all[|cases|].id;
    }
    assert all[|cases|] == c;
  }

  lemma KindsSnoc(cases: seq<Case>, c: Case)
    ensures HasPositive(cases + [c]) <==> HasPositive(cases) || Positive(c)
    ensures HasNegative(cases + [c]) <==> HasNegative(cases) || !Positive(c)
  {
    var all := cases + [c];
    assert all[|cases|] == c && forall i :: 0 <= i < |cases| ==> all[i] == cases[i];
  }

  lemma BadStaysBad(cases: seq<Case>, i: nat, ctx: Loading)
    requires i <= |cases| && !GoodCases(cases[..i], ctx)
    ensures !GoodCases(cases, ctx)
  {
  }

  method ValidateDataset(d: Dataset, ctx: Loading) returns (ok: bool)
    ensures ok <==> ValidDataset(d, ctx)
  {
    if !ctx.reloads(d) || !ctx.validId(d.version) || d.at == 0 || |d.cases| < 2 || |d.cases| > 256 {
      return false;
    }
    var ids: set<string> := {};
    var positive, negative := false, false;
    for i := 0 to |d.cases|
      invariant ids == IdsOf(d.cases[..i]) && GoodCases(d.cases[..i], ctx)
      invariant positive == HasPositive(d.cases[..i]) && negative == HasNegative(d.cases[..i])
    {
      var c := d.cases[i];
      CasesSnoc(d.cases[..i], c, ctx);
      KindsSnoc(d.cases[..i], c);
      assert d.cases[..i + 1] == d.cases[..i] + [c];
      var good := ValidateCase(c, ctx);
      if c.id in ids || !good {
        BadStaysBad(d.cases, i + 1, ctx);
        return false;
      }
      ids := ids + {c.id};
      if Positive(c) {
        positive := true;
      } else {
        negative := true;
      }
    }
    assert d.cases[..|d.cases|] == d.cases;
    ok := positive && negative && d.hash == ctx.digest(d);
  }

  /** What is checked before the first case: the dataset validates, the runners were recorded for it or for none, the budget fits. */
  predicate Accepts(d: Dataset, ctx: Loading, baselineHash: string, candidateHash: string, budget: int) {
    && ValidDataset(d, ctx) && (baselineHash == "" || baselineHash == d.hash) && (candidateHash == "" || candidateHash == d.hash)
    && 2 * |d.cases| <= budget <= 512
  }

  function Pairs(cases: seq<Case>, score: Scorer): seq<Pair> {
    seq(|cases|, i requires 0 <= i < |cases| => score(cases[i], i))
  }

  /** The usage of a side is reported only when every call told it. */
  function UsageOf(c: Counts): Option<Usage> {
    if c.usageSamples == c.calls then Some(c.knownUsage) else None
  }

  /** The report on some pairs, count by count. */
  function ReportOn(pairs: seq<Pair>): Report {
    var b, c := CountsOf(pairs, Baseline), CountsOf(pairs, Candidate);
    var wins := WinsOf(pairs);
    Report(b, UsageOf(b), c, UsageOf(c), wins.candidate, wins.baseline, wins.ties, pairs)
  }

  /** The report as it is accumulated. */
  function FoldedReport(pairs: seq<Pair>): Report {
    var b, c, wins := TallyAll(pairs, Baseline), TallyAll(pairs, Candidate), DecideAll(pairs);
    Report(b, UsageOf(b), c, UsageOf(c), wins.candidate, wins.baseline, wins.ties, pairs)
  }

  /** Accumulating case by case gives the report that counts. */
  lemma FoldingCounts(pairs: seq<Pair>)
    ensures FoldedReport(pairs) == ReportOn(pairs)
  {
    TallyCounts(pairs, Baseline);
    TallyCounts(pairs, Candidate);
    DecidedCounts(pairs);
  }

  /** Account for one pair on both sides and in the wins. */
  method Account(left: Summary, right: Summary, wins: Wins, p: Pair) returns (wins': Wins)
    requires left != right
    modifies left, right
    ensures left.View() == Tally(old(left.View()), p.baseline, p.positive)
    ensures right.View() == Tally(old(right.View()), p.candidate, p.positive)
    ensures wins' == Decide(wins, p)
  {
    left.Accumulate(p.baseline, p.positive);
    right.Accumulate(p.candidate, p.positive);
    if p.baseline.correct == p.candidate.correct {
      wins' := wins.(ties := wins.ties + 1);
    } else if p.candidate.correct {
      wins' := wins.(candidate := wins.candidate + 1);
    } else {
      wins' := wins.(baseline := wins.baseline + 1);
    }
  }

  lemma TallySnoc(pairs: seq<Pair>, p: Pair, side: Side)
    ensures TallyAll(pairs + [p], side) == Tally(TallyAll(pairs, side), Of(p, side), p.positive)
    ensures DecideAll(pairs + [p]) == Decide(DecideAll(pairs), p)
  {
    assert (pairs + [p])[..|pairs|] == pairs;
  }

  /** Account for one more pair after those already tallied. */
  method Append(left: Summary, right: Summary, wins: Wins, pairs: seq<Pair>, p: Pair) returns (wins': Wins)
    requires left != right && wins == DecideAll(pairs)
    requires left.View() == TallyAll(pairs, Baseline) && right.View() == TallyAll(pairs, Candidate)
    modifies left, right
    ensures left.View() == TallyAll(pairs + [p], Baseline) && right.View() == TallyAll(pairs + [p], Candidate)
    ensures wins' == DecideAll(pairs + [p])
  {
    TallySnoc(pairs, p, Baseline);
    TallySnoc(pairs, p, Candidate);
    wins' := Account(left, right, wins, p);
  }

  /** Run every case; `live(i)` says whether the context still stood before case `i`. */
  method TallyCases(cases: seq<Case>, score: Scorer, live: nat -> bool, left: Summary, right: Summary)
    returns (finished: bool, pairs: seq<Pair>, wins: Wins)
    requires left != right && left.View() == right.View() == NOTHING
    modifies left, right
    ensures finished <==> forall i :: 0 <= i < |cases| ==> live(i)
    ensures finished ==> pairs == Pairs(cases, score) && wins == DecideAll(pairs)
    ensures finished ==> left.View() == TallyAll(pairs, Baseline) && right.View() == TallyAll(pairs, Candidate)
  {
    pairs, wins := [], Wins(0, 0, 0);
    for i := 0 to |cases|
      invariant forall j :: 0 <= j < i ==> live(j)
      invariant |pairs| == i && forall j :: 0 <= j < i ==> pairs[j] == score(cases[j], j)
      invariant left.View() == TallyAll(pairs, Baseline) && right.View() == TallyAll(pairs, Candidate)
      invariant wins == DecideAll(pairs)
    {
      if !live(i) {
        return false, pairs, wins;
      }
      var p := score(cases[i], i);
      wins := Append(left, right, wins, pairs, p);
      pairs := pairs + [p];
    }
    finished := true;
  }

  method RunCases(cases: seq<Case>, score: Scorer, live: nat -> bool) returns (result: Result<Report, EvaluationError>)
    ensures result ==
            if exists i :: 0 <= i < |cases| && !live(i) then Err(Cancelled) else Ok(FoldedReport(Pairs(cases, score)))
  {
    var left := new Summary();
    var right := new Summary();
    var finished, pairs, wins := TallyCases(cases, score, live, left, right);
    if !finished {
      return Err(Cancelled);
    }
    var b, c := left.View(), right.View();
    result := Ok(Report(b, UsageOf(b), c, UsageOf(c), wins.candidate, wins.baseline, wins.ties, pairs));
  }

  method Compare(d: Dataset, ctx: Loading, baseline: Runner, baselineHash: string, candidate: Runner, candidateHash: string,
                 budget: int, liveAtStart: bool, live: nat -> bool)
    returns (result: Result<Report, EvaluationError>)
    ensures result ==
            if !Accepts(d, ctx, baselineHash, candidateHash, budget) then Err(BadRequest)
            else if !liveAtStart || (exists i :: 0 <= i < |d.cases| && !live(i)) then Err(Cancelled)
            else Ok(ReportOn(Pairs(d.cases, Scoring(baseline, candidate, d.at))))
  {
    var valid := ValidateDataset(d, ctx);
    if !valid || budget < 2 * |d.cases| || budget > 512 {
      return Err(BadRequest);
    }
    if (baselineHash != "" && baselineHash != d.hash) || (candidateHash != "" && candidateHash != d.hash) {
      return Err(BadRequest);
    }
    if !liveAtStart {
      return Err(Cancelled);
    }
    FoldingCounts(Pairs(d.cases, Scoring(baseline, candidate, d.at)));
    result := RunCases(d.cases, Scoring(baseline, candidate, d.at), live);
  }

  // ---------------------------------------------------------------- conservation

  lemma {:induction false} CountEvery(pairs: seq<Pair>, side: Side)
    ensures Count(pairs, Every, side) == |pairs|
  {
    if pairs != [] {
      CountEvery(pairs[..|pairs| - 1], side);
    }
  }

  /** `whole` from `side` splits into `x` from `side` and `y` from `other`. */
  predicate Splits(p: Pair, whole: Kind, side: Side, x: Kind, y: Kind, other: Side) {
    && (Is(whole, p, side) <==> Is(x, p, side) || Is(y, p, other))
    && !(Is(x, p, side) && Is(y, p, other))
  }

  lemma {:induction false} CountSplits(pairs: seq<Pair>, whole: Kind, side: Side, x: Kind, y: Kind, other: Side)
    requires forall i :: 0 <= i < |pairs| ==> Splits(pairs[i], whole, side, x, y, other)
    ensures Count(pairs, whole, side) == Count(pairs, x, side) + Count(pairs, y, other)
  {
    if pairs != [] {
      assert Splits(pairs[|pairs| - 1], whole, side, x, y, other);
      CountSplits(pairs[..|pairs| - 1], whole, side, x, y, other);
    }
  }

  /** A negative case is answered rightly, or called a false hypothesis, or failed: nothing else can come of it. */
  lemma NegativeOutcomes(o: Output, c: Case, at: Time)
    requires !Positive(c)
    ensures var s := ScoreOutput(o, c, at);
            && (s.correct || s.outcome == Judged(Hypothesis) || s.outcome == Failed)
            && !(s.correct && s.outcome == Judged(Hypothesis))
            && !(s.correct && s.outcome == Failed)
  {
  }

  /** An answer is right exactly when it tells the expected cause and the evidence supports it, or abstains where none is expected. */
  lemma RightExactly(o: Output, c: Case, at: Time)
    ensures ScoreOutput(o, c, at).correct <==>
              && o.errorCode == "" && o.conclusion.Some? && Assess(o.conclusion.value, c.evidence, at).Ok?
              && var said := o.conclusion.value;
                 (if Positive(c) then said.code == c.cause && said.handle == c.handle && SupportsHypothesis(said, c.evidence, at)
                  else !SupportsHypothesis(said, c.evidence, at))
  {
    if o.conclusion.Some? {
      HypothesisExactly(o.conclusion.value, c.evidence, at);
    }
  }

  function RunnerOf(side: Side, baseline: Runner, candidate: Runner): Runner {
    if side.Baseline? then baseline else candidate
  }

  /** The answer is of use: no error, and a conclusion the rubric judges. */
  predicate Usable(o: Output, c: Case, at: Time) {
    o.errorCode == "" && o.conclusion.Some? && Assess(o.conclusion.value, c.evidence, at).Ok?
  }

  /** The answer tells the expected cause with support, or abstains where none is expected. */
  ghost predicate Answers(o: Output, c: Case, at: Time) {
    && Usable(o, c, at)
    && var said := o.conclusion.value;
       if Positive(c) then said.code == c.cause && said.handle == c.handle && SupportsHypothesis(said, c.evidence, at)
       else !SupportsHypothesis(said, c.evidence, at)
  }

  ghost predicate Guesses(o: Output, c: Case, at: Time) {
    Usable(o, c, at) && SupportsHypothesis(o.conclusion.value, c.evidence, at)
  }

  /** On each side the score of a case is that of the side's own runner. */
  lemma EachSideIsItsRunner(cases: seq<Case>, baseline: Runner, candidate: Runner, at: Time, i: nat, side: Side)
    requires i < |cases|
    ensures var p, o, c := Pairs(cases, Scoring(baseline, candidate, at))[i], RunnerOf(side, baseline, candidate)(i), cases[i];
            var s := Of(p, side);
            && p.id == c.id && p.split == c.split && (p.positive <==> c.cause != OtherCode(""))
            && s.latency == o.latency && s.usage == o.usage
            && (s.correct <==> Answers(o, c, at)) && (s.outcome == Failed <==> !Usable(o, c, at))
            && (s.outcome == Judged(Hypothesis) <==> Guesses(o, c, at))
  {
    var o, c := RunnerOf(side, baseline, candidate)(i), cases[i];
    RightExactly(o, c, at);
    if o.conclusion.Some? {
      HypothesisExactly(o.conclusion.value, c.evidence, at);
    }
  }

  /** The positions below `n` with a property. */
  ghost function Where(n: nat, p: nat -> bool): set<nat> {
    set i: nat | i < n && p(i)
  }

  lemma OneMore(n: nat, p: nat -> bool)
    ensures |Where(n + 1, p)| == |Where(n, p)| + if p(n) then 1 else 0
  {
    assert Where(n + 1, p) == Where(n, p) + if p(n) then {n} else {};
  }

  /** A count is the number of positions of its kind. */
  lemma {:induction false} CountIsSize(pairs: seq<Pair>, kind: Kind, side: Side, p: nat -> bool)
    requires forall i :: 0 <= i < |pairs| ==> (p(i) <==> Is(kind, pairs[i], side))
    ensures Count(pairs, kind, side) == |Where(|pairs|, p)|
  {
    if pairs == [] {
      assert Where(0, p) == {};
    } else {
      CountIsSize(pairs[..|pairs| - 1], kind, side, p);
      OneMore(|pairs| - 1, p);
    }
  }

  /** Where the runner answers. */
  ghost function Hits(cases: seq<Case>, runner: Runner, at: Time): nat -> bool {
    (i: nat) => i < |cases| && Answers(runner(i), cases[i], at)
  }

  lemma HitsAreRight(cases: seq<Case>, baseline: Runner, candidate: Runner, at: Time, side: Side)
    ensures forall i :: 0 <= i < |cases| ==>
              (Hits(cases, RunnerOf(side, baseline, candidate), at)(i) <==>
                 Of(Pairs(cases, Scoring(baseline, candidate, at))[i], side).correct)
  {
    forall i | 0 <= i < |cases|
      ensures Hits(cases, RunnerOf(side, baseline, candidate), at)(i) <==>
                Of(Pairs(cases, Scoring(baseline, candidate, at))[i], side).correct
    {
      EachSideIsItsRunner(cases, baseline, candidate, at, i, side);
    }
  }

  /** What a report counts, said of the dataset and the runners themselves: who answers, and who alone does. */
  lemma ReportCounts(cases: seq<Case>, baseline: Runner, candidate: Runner, at: Time, side: Side)
    ensures var pairs := Pairs(cases, Scoring(baseline, candidate, at));
            var own := Hits(cases, RunnerOf(side, baseline, candidate), at);
            var others := Hits(cases, RunnerOf(Other(side), baseline, candidate), at);
            && CountsOf(pairs, side).correct == |Where(|cases|, own)|
            && (if side.Candidate? then ReportOn(pairs).candidateWins else ReportOn(pairs).baselineWins)
               == |Where(|cases|, (i: nat) => own(i) && !others(i))|
  {
    var pairs := Pairs(cases, Scoring(baseline, candidate, at));
    var own := Hits(cases, RunnerOf(side, baseline, candidate), at);
    var others := Hits(cases, RunnerOf(Other(side), baseline, candidate), at);
    HitsAreRight(cases, baseline, candidate, at, side);
    HitsAreRight(cases, baseline, candidate, at, Other(side));
    CountIsSize(pairs, Right, side, own);
    CountIsSize(pairs, Won, side, (i: nat) => own(i) && !others(i));
  }

  /** The lead in correct answers is the lead in wins. */
  lemma WinsAreTheLead(pairs: seq<Pair>)
    ensures var r := ReportOn(pairs); r.candidate.correct - r.baseline.correct == r.candidateWins - r.baselineWins
  {
    assert forall i :: 0 <= i < |pairs| ==> Splits(pairs[i], EitherRight, Candidate, Right, Won, Baseline);
    CountSplits(pairs, EitherRight, Candidate, Right, Won, Baseline);
    assert forall i :: 0 <= i < |pairs| ==> Splits(pairs[i], EitherRight, Baseline, Right, Won, Candidate);
    CountSplits(pairs, EitherRight, Baseline, Right, Won, Candidate);
    EitherIsSymmetric(pairs);
  }

  /** Every pair has exactly one winner or is a tie. */
  lemma EachPairIsDecided(pairs: seq<Pair>)
    ensures var r := ReportOn(pairs); r.candidateWins + r.baselineWins + r.ties == |pairs|
  {
    assert forall i :: 0 <= i < |pairs| ==> Splits(pairs[i], Differ, Candidate, Won, Won, Baseline);
    CountSplits(pairs, Differ, Candidate, Won, Won, Baseline);
    assert forall i :: 0 <= i < |pairs| ==> Splits(pairs[i], Every, Candidate, Differ, Tied, Candidate);
    CountSplits(pairs, Every, Candidate, Differ, Tied, Candidate);
    CountEvery(pairs, Candidate);
  }

  lemma {:induction false} EitherIsSymmetric(pairs: seq<Pair>)
    ensures Count(pairs, EitherRight, Baseline) == Count(pairs, EitherRight, Candidate)
  {
    if pairs != [] {
      EitherIsSymmetric(pairs[..|pairs| - 1]);
    }
  }

  /** Each side's counters add up over the cases. */
  lemma CountersAddUp(pairs: seq<Pair>, side: Side)
    ensures var c := CountsOf(pairs, side);
            && c.calls == |pairs|
            && c.calls == c.positiveCases + c.negativeCases
            && c.correct == c.positiveCorrect + c.negativeCorrect
  {
    CountEvery(pairs, side);
    assert forall i :: 0 <= i < |pairs| ==> Splits(pairs[i], Every, side, PositiveCase, NegativeCase, side);
    CountSplits(pairs, Every, side, PositiveCase, NegativeCase, side);
    assert forall i :: 0 <= i < |pairs| ==> Splits(pairs[i], Right, side, PositiveRight, NegativeRight, side);
    CountSplits(pairs, Right, side, PositiveRight, NegativeRight, side);
  }

  lemma PairsAreScored(cases: seq<Case>, baseline: Runner, candidate: Runner, at: Time, side: Side)
    ensures forall i :: 0 <= i < |cases| ==>
              var p := Pairs(cases, Scoring(baseline, candidate, at))[i];
              && Splits(p, NegativeCase, side, NegativeRight, NegativeWrong, side)
              && Splits(p, NegativeWrong, side, FalsePositive, NegativeError, side)
  {
    forall i | 0 <= i < |cases| && !Positive(cases[i])
      ensures var s := Of(PairOf(cases[i], i, baseline, candidate, at), side);
              && (s.correct || s.outcome == Judged(Hypothesis) || s.outcome == Failed)
              && !(s.correct && s.outcome == Judged(Hypothesis))
              && !(s.correct && s.outcome == Failed)
    {
      NegativeOutcomes(if side.Baseline? then baseline(i) else candidate(i), cases[i], at);
    }
  }

  lemma {:induction false} CountSome(pairs: seq<Pair>, kind: Kind, side: Side, i: nat)
    requires i < |pairs| && Is(kind, pairs[i], side)
    ensures Count(pairs, kind, side) > 0
  {
    if i < |pairs| - 1 {
      CountSome(pairs[..|pairs| - 1], kind, side, i);
    }
  }

  /** A report on an accepted dataset counts positive and negative cases, at most 256 in all, on both sides alike. */
  lemma BothKindsAreMeasured(d: Dataset, ctx: Loading, baseline: Runner, candidate: Runner, side: Side)
    requires ValidDataset(d, ctx)
    ensures var c := CountsOf(Pairs(d.cases, Scoring(baseline, candidate, d.at)), side);
            c.positiveCases > 0 && c.negativeCases > 0 && c.positiveCases + c.negativeCases == c.calls == |d.cases| <= 256
  {
    var pairs := Pairs(d.cases, Scoring(baseline, candidate, d.at));
    var i :| 0 <= i < |d.cases| && Positive(d.cases[i]);
    var j :| 0 <= j < |d.cases| && !Positive(d.cases[j]);
    CountSome(pairs, PositiveCase, side, i);
    CountSome(pairs, NegativeCase, side, j);
    CountSplits(pairs, Every, side, PositiveCase, NegativeCase, side);
    CountEvery(pairs, side);
  }

  /** For every dataset and runners, each negative case is right, a false positive or an error. */
  lemma NegativesAddUp(cases: seq<Case>, baseline: Runner, candidate: Runner, at: Time, side: Side)
    ensures var pairs := Pairs(cases, Scoring(baseline, candidate, at));
            var c := CountsOf(pairs, side);
            c.negativeCases == c.negativeCorrect + c.falsePositives + Count(pairs, NegativeError, side)
  {
    var pairs := Pairs(cases, Scoring(baseline, candidate, at));
    PairsAreScored(cases, baseline, candidate, at, side);
    CountSplits(pairs, NegativeCase, side, NegativeRight, NegativeWrong, side);
    CountSplits(pairs, NegativeWrong, side, FalsePositive, NegativeError, side);
  }

  /** Usage is reported exactly when every call told it. */
  lemma UsageKnownExactly(pairs: seq<Pair>, side: Side)
    ensures UsageOf(CountsOf(pairs, side)).Some? <==> forall i :: 0 <= i < |pairs| ==> Of(pairs[i], side).usage.Some?
  {
    CountEvery(pairs, side);
    MeteredAll(pairs, side);
  }

  lemma {:induction false} MeteredAll(pairs: seq<Pair>, side: Side)
    ensures Count(pairs, Metered, side) <= |pairs|
    ensures Count(pairs, Metered, side) == |pairs| <==> forall i :: 0 <= i < |pairs| ==> Of(pairs[i], side).usage.Some?
  {
    if pairs != [] {
      var front := pairs[..|pairs| - 1];
      MeteredAll(front, side);
      assert pairs == front + [pairs[|pairs| - 1]];
    }
  }
}

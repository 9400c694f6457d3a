/**
 The deterministic rubric: whether a model's conclusion is supported by the current evidence it
 cites.  It can call a conclusion a hypothesis; it never corroborates one.
 */
module Rubric {
  import opened Wrappers
  import opened Clock
  import opened Observations

  datatype Evidence = Evidence(ref: ItemRef, observation: Observation)

  datatype Check = Check(kind: string, handle: string)

  datatype Alternative = Alternative(code: Code, evidence: seq<ItemRef>)

  datatype Conclusion = Conclusion(
    checks: seq<Check>,
    code: Code,
    handle: string,
    supporting: seq<ItemRef>,
    contradicting: seq<ItemRef>,
    alternatives: seq<Alternative>
  )

  const NO_CONCLUSION := Conclusion([], OtherCode(""), "", [], [], [])

  datatype Status = Hypothesis | Inconclusive | NeedsEvidence | Corroborated

  datatype Assessment = Assessment(status: Status, reason: string, conclusion: Conclusion)

  datatype Error = InvalidConclusion | Conflict | Invalid | RefreshFailed

  /** The observation a claim about `handle` at `at` would make. */
  function Probe(code: Code, handle: string, at: Time): Observation {
    Observation(code, handle, at, at + MINUTE, None, None, true)
  }

  predicate Current(o: Observation, at: Time) {
    ValidObservation(o) && o.observedAt <= at < o.validUntil
  }

  /** The current evidence by reference; a later item replaces an earlier one with the same reference. */
  function ByRef(evidence: seq<Evidence>, at: Time): map<ItemRef, Observation> {
    if evidence == [] then map[]
    else
      var rest, last := ByRef(evidence[..|evidence| - 1], at), evidence[|evidence| - 1];
      if Current(last.observation, at) then rest[last.ref := last.observation] else rest
  }

  predicate CheckAllowed(check: Check, evidence: seq<Evidence>) {
    && ValidHandle(check.handle)
    && (check.kind == "REFRESH_RESOURCE_STATE" || check.kind == "REFRESH_DEPENDENCIES")
    && exists i :: 0 <= i < |evidence| && evidence[i].observation.handle == check.handle
  }

  predicate WellFormed(c: Conclusion, evidence: seq<Evidence>, at: Time) {
    && ValidObservation(Probe(c.code, c.handle, at))
    && |c.supporting| <= 32 && |c.contradicting| <= 32 && |c.alternatives| <= 8 && |c.checks| <= 2
    && (forall i :: 0 <= i < |c.checks| ==> CheckAllowed(c.checks[i], evidence))
  }

  predicate Resolve(refs: seq<ItemRef>, known: map<ItemRef, Observation>) {
    forall i :: 0 <= i < |refs| ==> refs[i] in known
  }

  predicate AlternativeAllowed(a: Alternative, handle: string, at: Time, known: map<ItemRef, Observation>) {
    ValidObservation(Probe(a.code, handle, at)) && |a.evidence| <= 32 && Resolve(a.evidence, known)
  }

  predicate Citable(c: Conclusion, at: Time, known: map<ItemRef, Observation>) {
    && Resolve(c.supporting, known) && Resolve(c.contradicting, known)
    && forall i :: 0 <= i < |c.alternatives| ==> AlternativeAllowed(c.alternatives[i], c.handle, at, known)
  }

  /** A cited observation says the cause itself of the resource itself. */
  predicate Direct(c: Conclusion, known: map<ItemRef, Observation>) {
    exists i :: 0 <= i < |c.supporting| && c.supporting[i] in known
             && known[c.supporting[i]].code == c.code && known[c.supporting[i]].handle == c.handle
  }

  /** Current evidence says the resource is healthy. */
  predicate SeenHealthy(c: Conclusion, known: map<ItemRef, Observation>) {
    c.code != Healthy && exists r :: r in known && known[r].handle == c.handle && known[r].code == Healthy
  }

  predicate Symptom(code: Code) {
    code == CrashLoop || code == PodFailed || code == DependencyUnavailable
  }

  predicate NoCause(code: Code) {
    code == ReadUnavailable || code == Healthy || code == Unclassified
  }

  function Assess(c: Conclusion, evidence: seq<Evidence>, at: Time): Result<Assessment, Error> {
    var known := ByRef(evidence, at);
    if !WellFormed(c, evidence, at) || !Citable(c, at, known) then Err(InvalidConclusion)
    else if SeenHealthy(c, known) then Ok(Assessment(Inconclusive, "OBSERVED_HEALTH_CONTRADICTION", c))
    else if c.contradicting != [] then Ok(Assessment(Inconclusive, "MATERIAL_CONTRADICTION", c))
    else if !Direct(c, known) || NoCause(c.code) then Ok(Assessment(NeedsEvidence, "MISSING_DIRECT_EVIDENCE", c))
    else if Symptom(c.code) then Ok(Assessment(NeedsEvidence, "SYMPTOM_REQUIRES_UPSTREAM_EVIDENCE", c))
    else Ok(Assessment(Hypothesis, "INDEPENDENT_CAUSAL_REVIEW_REQUIRED", c))
  }

  // ---------------------------------------------------------------- the procedure

  method ChecksAllowed(checks: seq<Check>, evidence: seq<Evidence>) returns (ok: bool)
    ensures ok <==> forall i :: 0 <= i < |checks| ==> CheckAllowed(checks[i], evidence)
  {
    for i := 0 to |checks|
      invariant forall j :: 0 <= j < i ==> CheckAllowed(checks[j], evidence)
    {
      var check := checks[i];
      if !ValidHandle(check.handle) || (check.kind != "REFRESH_RESOURCE_STATE" && check.kind != "REFRESH_DEPENDENCIES") {
        return false;
      }
      var found := false;
      for j := 0 to |evidence|
        invariant found <==> exists k :: 0 <= k < j && evidence[k].observation.handle == check.handle
      {
        if evidence[j].observation.handle == check.handle {
          found := true;
        }
      }
      if !found {
        return false;
      }
    }
    ok := true;
  }

  method IndexByRef(evidence: seq<Evidence>, at: Time) returns (known: map<ItemRef, Observation>)
    ensures known == ByRef(evidence, at)
  {
    known := map[];
    for i := 0 to |evidence|
      invariant known == ByRef(evidence[..i], at)
    {
      var item := evidence[i];
      assert evidence[..i + 1][..i] == evidence[..i];
      if !ValidObservation(item.observation) || item.observation.observedAt > at || item.observation.validUntil <= at {
        continue;
      }
      known := known[item.ref := item.observation];
    }
    assert evidence[..|evidence|] == evidence;
  }

  method AllKnown(refs: seq<ItemRef>, known: map<ItemRef, Observation>) returns (ok: bool)
    ensures ok <==> Resolve(refs, known)
  {
    for i := 0 to |refs|
      invariant forall j :: 0 <= j < i ==> refs[j] in known
    {
      if refs[i] !in known {
        return false;
      }
    }
    ok := true;
  }

  /** Look through the known observations, in whatever order a map yields them. */
  method FindHealthy(c: Conclusion, known: map<ItemRef, Observation>) returns (found: bool)
    ensures found <==> SeenHealthy(c, known)
  {
    var rest := known.Keys;
    while rest != {}
      invariant rest <= known.Keys
      invariant forall r :: r in known && r !in rest ==> !(known[r].handle == c.handle && known[r].code == Healthy && c.code != Healthy)
      decreases |rest|
    {
      var r :| r in rest;
      if known[r].handle == c.handle && known[r].code == Healthy && c.code != Healthy {
        return true;
      }
      rest := rest - {r};
    }
    found := false;
  }

  method AssessCandidate(c: Conclusion, evidence: seq<Evidence>, at: Time) returns (result: Result<Assessment, Error>)
    ensures result == Assess(c, evidence, at)
  {
    if !ValidObservation(Probe(c.code, c.handle, at)) {
      return Err(InvalidConclusion);
    }
    if !ValidHandle(c.handle) || |c.supporting| > 32 || |c.contradicting| > 32 || |c.alternatives| > 8 || |c.checks| > 2 {
      return Err(InvalidConclusion);
    }
    var allowed := ChecksAllowed(c.checks, evidence);
    if !allowed {
      return Err(InvalidConclusion);
    }
    var known := IndexByRef(evidence, at);
    var direct := false;
    for i := 0 to |c.supporting|
      invariant forall j :: 0 <= j < i ==> c.supporting[j] in known
      invariant direct <==> exists j :: 0 <= j < i && c.supporting[j] in known
                                      && known[c.supporting[j]].code == c.code && known[c.supporting[j]].handle == c.handle
    {
      if c.supporting[i] !in known {
        return Err(InvalidConclusion);
      }
      var o := known[c.supporting[i]];
      if o.code == c.code && o.handle == c.handle {
        direct := true;
      }
    }
    var resolved := AllKnown(c.contradicting, known);
    if !resolved {
      return Err(InvalidConclusion);
    }
    for i := 0 to |c.alternatives|
      invariant forall j :: 0 <= j < i ==> AlternativeAllowed(c.alternatives[j], c.handle, at, known)
    {
      var a := c.alternatives[i];
      if !ValidObservation(Probe(a.code, c.handle, at)) || |a.evidence| > 32 {
        return Err(InvalidConclusion);
      }
      var all := AllKnown(a.evidence, known);
      if !all {
        return Err(InvalidConclusion);
      }
    }
    var healthy := FindHealthy(c, known);
    if healthy {
      return Ok(Assessment(Inconclusive, "OBSERVED_HEALTH_CONTRADICTION", c));
    }
    if |c.contradicting| > 0 {
      return Ok(Assessment(Inconclusive, "MATERIAL_CONTRADICTION", c));
    }
    var missing := Assessment(NeedsEvidence, "MISSING_DIRECT_EVIDENCE", c);
    if !direct {
      return Ok(missing);
    }
    match c.code {
      case CrashLoop => return Ok(missing.(reason := "SYMPTOM_REQUIRES_UPSTREAM_EVIDENCE"));
      case PodFailed => return Ok(missing.(reason := "SYMPTOM_REQUIRES_UPSTREAM_EVIDENCE"));
      case DependencyUnavailable => return Ok(missing.(reason := "SYMPTOM_REQUIRES_UPSTREAM_EVIDENCE"));
      case ReadUnavailable => return Ok(missing);
      case Healthy => return Ok(missing);
      case Unclassified => return Ok(missing);
      case _ =>
    }
    result := Ok(Assessment(Hypothesis, "INDEPENDENT_CAUSAL_REVIEW_REQUIRED", c));
  }

  // ---------------------------------------------------------------- what the rubric grants

  /** A well-formed observation, made by now, not yet out of date and for no more than an hour. */
  predicate Fresh(o: Observation, at: Time) {
    && o.detailsValid && !o.code.OtherCode? && ValidHandle(o.handle)
    && o.observedAt != 0 && o.observedAt <= at < o.validUntil <= o.observedAt + HOUR
  }

  /** Item `i` is fresh and no later fresh item carries the same reference. */
  predicate InForce(evidence: seq<Evidence>, at: Time, i: int) {
    && 0 <= i < |evidence| && Fresh(evidence[i].observation, at)
    && forall j :: i < j < |evidence| && evidence[j].ref == evidence[i].ref ==> !Fresh(evidence[j].observation, at)
  }

  lemma FreshExactly(o: Observation, at: Time)
    ensures Fresh(o, at) <==> Current(o, at)
  {
  }

  /** The index holds exactly the items in force. */
  lemma {:induction false} IndexIsInForce(evidence: seq<Evidence>, at: Time, r: ItemRef)
    ensures r in ByRef(evidence, at) <==> exists i :: InForce(evidence, at, i) && evidence[i].ref == r
    ensures forall i :: InForce(evidence, at, i) && evidence[i].ref == r ==>
              r in ByRef(evidence, at) && ByRef(evidence, at)[r] == evidence[i].observation
  {
    if evidence != [] {
      var n := |evidence| - 1;
      var front, last := evidence[..n], evidence[n];
      IndexIsInForce(front, at, r);
      FreshExactly(last.observation, at);
      forall i | 0 <= i < n
        ensures InForce(evidence, at, i) <==> InForce(front, at, i) && !(last.ref == front[i].ref && Fresh(last.observation, at))
      {
        assert front[i] == evidence[i];
      }
      if Fresh(last.observation, at) && last.ref == r {
        assert InForce(evidence, at, n);
      } else if r in ByRef(front, at) {
        var i :| InForce(front, at, i) && front[i].ref == r;
        assert InForce(evidence, at, i);
      }
    }
  }

  predicate DistinctRefs(evidence: seq<Evidence>) {
    forall i, j :: 0 <= i < j < |evidence| ==> evidence[i].ref != evidence[j].ref
  }

  lemma IndexWithin(e1: seq<Evidence>, e2: seq<Evidence>, at: Time, r: ItemRef)
    requires DistinctRefs(e2) && multiset(e1) == multiset(e2) && r in ByRef(e1, at)
    ensures r in ByRef(e2, at) && ByRef(e1, at)[r] == ByRef(e2, at)[r]
  {
    IndexIsInForce(e1, at, r);
    IndexIsInForce(e2, at, r);
    var i :| InForce(e1, at, i) && e1[i].ref == r;
    assert e1[i] in multiset(e2);
    var j :| 0 <= j < |e2| && e2[j] == e1[i];
    assert InForce(e2, at, j);
  }

  /** Evidence in another order, with distinct references, gives the same index. */
  lemma IndexIgnoresOrder(e1: seq<Evidence>, e2: seq<Evidence>, at: Time)
    requires DistinctRefs(e1) && DistinctRefs(e2) && multiset(e1) == multiset(e2)
    ensures ByRef(e1, at) == ByRef(e2, at)
  {
    forall r
      ensures r in ByRef(e1, at) ==> r in ByRef(e2, at) && ByRef(e1, at)[r] == ByRef(e2, at)[r]
      ensures r in ByRef(e2, at) ==> r in ByRef(e1, at)
    {
      if r in ByRef(e1, at) {
        IndexWithin(e1, e2, at, r);
      }
      if r in ByRef(e2, at) {
        IndexWithin(e2, e1, at, r);
      }
    }
  }

  lemma ChecksIgnoreOrder(check: Check, e1: seq<Evidence>, e2: seq<Evidence>)
    requires multiset(e1) == multiset(e2) && CheckAllowed(check, e1)
    ensures CheckAllowed(check, e2)
  {
    var i :| 0 <= i < |e1| && e1[i].observation.handle == check.handle;
    assert e1[i] in multiset(e2);
    var j :| 0 <= j < |e2| && e2[j] == e1[i];
  }

  /** The assessment does not depend on the order of evidence with distinct references. */
  lemma AssessmentIgnoresOrder(c: Conclusion, e1: seq<Evidence>, e2: seq<Evidence>, at: Time)
    requires DistinctRefs(e1) && DistinctRefs(e2) && multiset(e1) == multiset(e2)
    ensures Assess(c, e1, at) == Assess(c, e2, at)
  {
    IndexIgnoresOrder(e1, e2, at);
    forall i | 0 <= i < |c.checks|
      ensures CheckAllowed(c.checks[i], e1) <==> CheckAllowed(c.checks[i], e2)
    {
      if CheckAllowed(c.checks[i], e1) {
        ChecksIgnoreOrder(c.checks[i], e1, e2);
      }
      if CheckAllowed(c.checks[i], e2) {
        ChecksIgnoreOrder(c.checks[i], e2, e1);
      }
    }
  }

  ghost predicate IsObserved(r: ItemRef, evidence: seq<Evidence>, at: Time) {
    exists i :: InForce(evidence, at, i) && evidence[i].ref == r
  }

  ghost predicate AllObserved(refs: seq<ItemRef>, evidence: seq<Evidence>, at: Time) {
    forall i :: 0 <= i < |refs| ==> IsObserved(refs[i], evidence, at)
  }

  /** Item `i` is cited and says the cause itself of the resource itself. */
  predicate SaysCause(c: Conclusion, e: Evidence) {
    e.ref in c.supporting && e.observation.code == c.code && e.observation.handle == c.handle
  }

  predicate SaysHealthy(c: Conclusion, e: Evidence) {
    e.observation.handle == c.handle && e.observation.code == Healthy
  }

  /** A check of a known kind on a resource that some item observes. */
  predicate AsksObserved(check: Check, evidence: seq<Evidence>) {
    && check.kind in {"REFRESH_RESOURCE_STATE", "REFRESH_DEPENDENCIES"} && ValidHandle(check.handle)
    && exists i :: 0 <= i < |evidence| && evidence[i].observation.handle == check.handle
  }

  /** Within the bounds, of known codes, with every reference to an item in force: what the rubric judges at all. */
  ghost predicate Sound(c: Conclusion, evidence: seq<Evidence>, at: Time) {
    && at != 0 && !c.code.OtherCode? && ValidHandle(c.handle)
    && |c.checks| <= 2 && (forall i :: 0 <= i < |c.checks| ==> AsksObserved(c.checks[i], evidence))
    && |c.supporting| <= 32 && AllObserved(c.supporting, evidence, at)
    && |c.contradicting| <= 32 && AllObserved(c.contradicting, evidence, at)
    && |c.alternatives| <= 8
    && (forall i :: 0 <= i < |c.alternatives| ==>
          !c.alternatives[i].code.OtherCode? && |c.alternatives[i].evidence| <= 32
          && AllObserved(c.alternatives[i].evidence, evidence, at))
  }

  /** A cited item in force says the cause. */
  ghost predicate Evidenced(c: Conclusion, evidence: seq<Evidence>, at: Time) {
    exists i :: InForce(evidence, at, i) && SaysCause(c, evidence[i])
  }

  /** An item in force says the resource is healthy, against the conclusion. */
  ghost predicate Refuted(c: Conclusion, evidence: seq<Evidence>, at: Time) {
    c.code != Healthy && exists i :: InForce(evidence, at, i) && SaysHealthy(c, evidence[i])
  }

  /** The conditions for a hypothesis, in terms of the evidence itself. */
  ghost predicate SupportsHypothesis(c: Conclusion, evidence: seq<Evidence>, at: Time) {
    && Sound(c, evidence, at) && c.code in {NetworkBlocked, ConfigurationDrift, ResourcePressure}
    && c.contradicting == [] && Evidenced(c, evidence, at) && !Refuted(c, evidence, at)
  }

  lemma ResolveIsObserved(refs: seq<ItemRef>, evidence: seq<Evidence>, at: Time)
    ensures Resolve(refs, ByRef(evidence, at)) <==> AllObserved(refs, evidence, at)
  {
    forall i | 0 <= i < |refs|
      ensures refs[i] in ByRef(evidence, at) <==> IsObserved(refs[i], evidence, at)
    {
      IndexIsInForce(evidence, at, refs[i]);
    }
  }

  lemma DirectIsObserved(c: Conclusion, evidence: seq<Evidence>, at: Time)
    ensures Direct(c, ByRef(evidence, at)) <==> exists i :: InForce(evidence, at, i) && SaysCause(c, evidence[i])
  {
    var known := ByRef(evidence, at);
    if Direct(c, known) {
      var i :| 0 <= i < |c.supporting| && c.supporting[i] in known
               && known[c.supporting[i]].code == c.code && known[c.supporting[i]].handle == c.handle;
      IndexIsInForce(evidence, at, c.supporting[i]);
      var k :| InForce(evidence, at, k) && evidence[k].ref == c.supporting[i];
      assert SaysCause(c, evidence[k]);
    }
    if k :| InForce(evidence, at, k) && SaysCause(c, evidence[k]) {
      IndexIsInForce(evidence, at, evidence[k].ref);
      var i :| 0 <= i < |c.supporting| && c.supporting[i] == evidence[k].ref;
    }
  }

  lemma HealthIsObserved(c: Conclusion, evidence: seq<Evidence>, at: Time)
    requires c.code != Healthy
    ensures SeenHealthy(c, ByRef(evidence, at)) <==> exists i :: InForce(evidence, at, i) && SaysHealthy(c, evidence[i])
  {
    var known := ByRef(evidence, at);
    if SeenHealthy(c, known) {
      var r :| r in known && known[r].handle == c.handle && known[r].code == Healthy;
      IndexIsInForce(evidence, at, r);
      var k :| InForce(evidence, at, k) && evidence[k].ref == r;
      assert SaysHealthy(c, evidence[k]);
    }
    if k :| InForce(evidence, at, k) && SaysHealthy(c, evidence[k]) {
      IndexIsInForce(evidence, at, evidence[k].ref);
    }
  }

  lemma SoundExactly(c: Conclusion, evidence: seq<Evidence>, at: Time)
    ensures Sound(c, evidence, at) <==> WellFormed(c, evidence, at) && Citable(c, at, ByRef(evidence, at))
  {
    ResolveIsObserved(c.supporting, evidence, at);
    ResolveIsObserved(c.contradicting, evidence, at);
    forall i | 0 <= i < |c.alternatives|
      ensures Resolve(c.alternatives[i].evidence, ByRef(evidence, at)) <==> AllObserved(c.alternatives[i].evidence, evidence, at)
    {
      ResolveIsObserved(c.alternatives[i].evidence, evidence, at);
    }
    assert forall i :: 0 <= i < |c.checks| ==> (CheckAllowed(c.checks[i], evidence) <==> AsksObserved(c.checks[i], evidence));
  }

  /** The verdict on a sound conclusion, by the first of these that applies. */
  ghost function Verdict(c: Conclusion, evidence: seq<Evidence>, at: Time): (Status, string) {
    if Refuted(c, evidence, at) then (Inconclusive, "OBSERVED_HEALTH_CONTRADICTION")
    else if c.contradicting != [] then (Inconclusive, "MATERIAL_CONTRADICTION")
    else if !Evidenced(c, evidence, at) || c.code in {ReadUnavailable, Healthy, Unclassified}
    then (NeedsEvidence, "MISSING_DIRECT_EVIDENCE")
    else if c.code in {CrashLoop, PodFailed, DependencyUnavailable} then (NeedsEvidence, "SYMPTOM_REQUIRES_UPSTREAM_EVIDENCE")
    else (Hypothesis, "INDEPENDENT_CAUSAL_REVIEW_REQUIRED")
  }

  /** Exactly the sound conclusions are judged, each with its verdict. */
  lemma JudgesExactly(c: Conclusion, evidence: seq<Evidence>, at: Time)
    ensures Assess(c, evidence, at) ==
              if Sound(c, evidence, at)
              then Ok(Assessment(Verdict(c, evidence, at).0, Verdict(c, evidence, at).1, c))
              else Err(InvalidConclusion)
  {
    SoundExactly(c, evidence, at);
    DirectIsObserved(c, evidence, at);
    if c.code != Healthy {
      HealthIsObserved(c, evidence, at);
    }
  }

  /** A conclusion is a hypothesis exactly when the evidence supports it; nothing is ever corroborated. */
  lemma HypothesisExactly(c: Conclusion, evidence: seq<Evidence>, at: Time)
    ensures var a := Assess(c, evidence, at);
            && (a.Ok? && a.value.status == Hypothesis <==> SupportsHypothesis(c, evidence, at))
            && (a.Ok? ==> a.value.status != Corroborated && a.value.conclusion == c)
  {
    JudgesExactly(c, evidence, at);
  }
}

/** Diagnostic items by reference, and the observations they carry. */
module Observations {
  import opened Wrappers
  import opened Clock

  datatype Code =
    | CrashLoop | PodFailed | DependencyUnavailable | NetworkBlocked | ConfigurationDrift
    | ResourcePressure | ReadUnavailable | Healthy | Unclassified | OtherCode(text: string)

  datatype ItemRef = ItemRef(id: string, version: int)

  datatype Target = Target(kind: string, uid: string, resourceVersion: string, commitment: string)

  datatype Source = Source(agentId: string, generation: int)

  /** `detailsValid` stands for the checks of source, target, dependencies and metrics. */
  datatype Observation = Observation(
    code: Code, handle: string, observedAt: Time, validUntil: Time,
    target: Option<Target>, source: Option<Source>, detailsValid: bool
  )

  predicate HexDigit(c: char) {
    '0' <= c <= '9' || 'a' <= c <= 'f' || 'A' <= c <= 'F'
  }

  predicate ValidHandle(h: string) {
    |h| == 32 && forall i :: 0 <= i < |h| ==> HexDigit(h[i])
  }

  predicate ValidObservation(o: Observation) {
    && o.detailsValid && !o.code.OtherCode? && ValidHandle(o.handle)
    && o.observedAt != 0 && o.observedAt < o.validUntil && o.validUntil - o.observedAt <= HOUR
  }
}

/**
 Notifying about new proposals: a proposal is announced unless it, its issue or its target is already
 known or was announced within the last 24 hours; old announcements are forgotten on the way.
 */
module Notifications {
  import opened Wrappers
  import opened Clock

  /** `action` is absent for a proposal without a diagnosis. */
  datatype Proposal = Proposal(id: string, namespace: string, kind: string, name: string, issueId: string, action: Option<string>)

  type Recent = map<string, Time>

  datatype Answer = Answer(recent: Recent, known: set<string>, announced: bool)

  function TargetKey(p: Proposal): string {
    match p.action
    case None => ""
    case Some(action) => "target:" + p.namespace + "/" + p.kind + "/" + p.name + "/" + action
  }

  function IssueKey(p: Proposal): string {
    "issue:" + p.issueId
  }

  /** The keys under which a proposal is remembered. */
  function Keys(p: Proposal): set<string> {
    (if p.action.Some? then {TargetKey(p)} else {}) + (if p.issueId != "" then {IssueKey(p)} else {})
  }

  function Prune(recent: Recent, now: Time): Recent {
    map k | k in recent && now - recent[k] <= DAY :: recent[k]
  }

  predicate IsKnown(p: Proposal, known: set<string>) {
    p.id in known || exists k :: k in Keys(p) && k in known
  }

  predicate TooSoon(p: Proposal, recent: Recent, now: Time) {
    exists k :: k in Keys(p) && k in recent && now - recent[k] < DAY
  }

  function Remember(recent: Recent, keys: set<string>, now: Time): Recent {
    recent + map k | k in keys :: now
  }

  function Notify(recent: Recent, known: set<string>, p: Option<Proposal>, now: Time): Answer {
    if p.None? || IsKnown(p.value, known) then Answer(recent, known, false)
    else
      var kept := Prune(recent, now);
      if TooSoon(p.value, kept, now) then Answer(kept, known, false)
      else Answer(Remember(kept, Keys(p.value), now), known + {p.value.id} + Keys(p.value), true)
  }

  // ---------------------------------------------------------------- keys

  predicate Slashless(s: string) {
    forall i :: 0 <= i < |s| ==> s[i] != '/'
  }

  /** Text up to the first slash can be told apart from the text behind it. */
  lemma FirstSlash(a: string, x: string, b: string, y: string)
    requires Slashless(a) && Slashless(b) && a + "/" + x == b + "/" + y
    ensures a == b && x == y
  {
    var s := a + "/" + x;
    assert s == b + "/" + y;
    assert s[|a|] == '/' && s[|b|] == '/';
    assert forall i :: 0 <= i < |a| ==> s[i] == a[i] != '/';
    assert forall i :: 0 <= i < |b| ==> s[i] == b[i] != '/';
    assert a == s[..|a|] && b == s[..|b|];
    assert x == s[|a| + 1..] && y == s[|b| + 1..];
  }

  predicate PlainNames(p: Proposal) {
    Slashless(p.namespace) && Slashless(p.kind) && Slashless(p.name)
  }

  predicate SameTarget(p: Proposal, q: Proposal) {
    p.namespace == q.namespace && p.kind == q.kind && p.name == q.name && p.action == q.action
  }

  /** The text of a target behind its tag, and what is behind each of its parts. */
  function ActionPart(p: Proposal): string
    requires p.action.Some?
  {
    p.name + "/" + p.action.value
  }

  function NamePart(p: Proposal): string
    requires p.action.Some?
  {
    p.kind + "/" + ActionPart(p)
  }

  function TargetPart(p: Proposal): string
    requires p.action.Some?
  {
    p.namespace + "/" + NamePart(p)
  }

  lemma TagsAside(p: Proposal, q: Proposal)
    requires p.action.Some? && q.action.Some?
    ensures TargetKey(p) == TargetKey(q) <==> TargetPart(p) == TargetPart(q)
  {
    assert TargetKey(p) == "target:" + TargetPart(p) && TargetKey(q) == "target:" + TargetPart(q);
    assert TargetPart(p) == TargetKey(p)[|"target:"|..] && TargetPart(q) == TargetKey(q)[|"target:"|..];
  }

  /** A target key names one action on one resource, as long as namespaces, kinds and names hold no slash. */
  lemma SameTargetExactly(p: Proposal, q: Proposal)
    requires p.action.Some? && q.action.Some?
    ensures SameTarget(p, q) ==> TargetKey(p) == TargetKey(q)
    ensures PlainNames(p) && PlainNames(q) && TargetKey(p) == TargetKey(q) ==> SameTarget(p, q)
  {
    if TargetKey(p) == TargetKey(q) && PlainNames(p) && PlainNames(q) {
      TagsAside(p, q);
      FirstSlash(p.namespace, NamePart(p), q.namespace, NamePart(q));
      FirstSlash(p.kind, ActionPart(p), q.kind, ActionPart(q));
      FirstSlash(p.name, p.action.value, q.name, q.action.value);
    }
  }

  /** With slashes in them, different targets can have one key. */
  lemma SlashesMayCollide()
    ensures exists p: Proposal, q: Proposal :: p.action.Some? && q.action.Some? && !SameTarget(p, q) && TargetKey(p) == TargetKey(q)
  {
    var p := Proposal("1", "a/b", "c", "d", "", Some("e"));
    var q := Proposal("2", "a", "b/c", "d", "", Some("e"));
    assert p.namespace + "/" + p.kind == q.namespace + "/" + q.kind;
    assert TargetKey(p) == "target:" + (p.namespace + "/" + p.kind) + "/d/e";
    assert TargetKey(q) == "target:" + (q.namespace + "/" + q.kind) + "/d/e";
    assert |p.namespace| != |q.namespace|;
  }

  function Slashes(s: string): nat {
    if s == "" then 0 else (if s[0] == '/' then 1 else 0) + Slashes(s[1..])
  }

  lemma {:induction false} SlashesAdd(a: string, b: string)
    ensures Slashes(a + b) == Slashes(a) + Slashes(b)
  {
    if a == "" {
      assert a + b == b;
    } else {
      assert (a + b)[1..] == a[1..] + b;
      SlashesAdd(a[1..], b);
    }
  }

  lemma {:induction false} SlashlessExactly(s: string)
    ensures Slashless(s) <==> Slashes(s) == 0
  {
    if s != "" {
      SlashlessExactly(s[1..]);
      assert s == [s[0]] + s[1..];
    }
  }

  lemma SlashesJoin(a: string, b: string)
    ensures Slashes(a + "/" + b) == Slashes(a) + 1 + Slashes(b)
  {
    SlashesAdd(a + "/", b);
    SlashesAdd(a, "/");
    assert "/"[1..] == "";
  }

  lemma TargetSlashes(p: Proposal)
    requires p.action.Some?
    ensures Slashes(TargetPart(p)) == Slashes(p.namespace) + Slashes(p.kind) + Slashes(p.name) + Slashes(p.action.value) + 3
  {
    SlashesJoin(p.namespace, NamePart(p));
    SlashesJoin(p.kind, ActionPart(p));
    SlashesJoin(p.name, p.action.value);
  }

  predicate PlainTarget(p: Proposal) {
    PlainNames(p) && (p.action.Some? ==> Slashless(p.action.value))
  }

  lemma PlainExactly(p: Proposal)
    requires p.action.Some?
    ensures PlainTarget(p) <==> Slashes(TargetPart(p)) == 3
  {
    TargetSlashes(p);
    SlashlessExactly(p.namespace);
    SlashlessExactly(p.kind);
    SlashlessExactly(p.name);
    SlashlessExactly(p.action.value);
  }

  /** Some other target has the same key. */
  ghost predicate Collides(p: Proposal) {
    exists q: Proposal :: p.action.Some? && q.action.Some? && !SameTarget(p, q) && TargetKey(p) == TargetKey(q)
  }

  lemma SplitsAtSlash(s: string) returns (x: string, y: string)
    requires !Slashless(s)
    ensures s == x + "/" + y
  {
    var i :| 0 <= i < |s| && s[i] == '/';
    x, y := s[..i], s[i + 1..];
  }

  /** A target shares its key with another one if and only if some part of it holds a slash. */
  lemma CollidesExactly(p: Proposal)
    requires p.action.Some?
    ensures Collides(p) <==> !PlainTarget(p)
  {
    if PlainTarget(p) {
      forall q: Proposal | q.action.Some? && TargetKey(p) == TargetKey(q)
        ensures SameTarget(p, q)
      {
        TagsAside(p, q);
        PlainExactly(p);
        PlainExactly(q);
        SameTargetExactly(p, q);
      }
    } else {
      var q := Twin(p);
      assert !SameTarget(p, q) && TargetKey(p) == TargetKey(q);
    }
  }

  /** Move the boundary of a part that holds a slash to that slash. */
  lemma Twin(p: Proposal) returns (q: Proposal)
    requires p.action.Some? && !PlainTarget(p)
    ensures q.action.Some? && !SameTarget(p, q) && TargetKey(p) == TargetKey(q)
  {
    if !Slashless(p.namespace) {
      var x, y := SplitsAtSlash(p.namespace);
      q := p.(namespace := x, kind := y + "/" + p.kind);
      assert TargetPart(q) == TargetPart(p);
      assert |q.namespace| < |p.namespace|;
    } else if !Slashless(p.kind) {
      var x, y := SplitsAtSlash(p.kind);
      q := p.(namespace := p.namespace + "/" + x, kind := y);
      assert TargetPart(q) == TargetPart(p);
      assert |q.kind| < |p.kind|;
    } else if !Slashless(p.name) {
      var x, y := SplitsAtSlash(p.name);
      q := p.(kind := p.kind + "/" + x, name := y);
      assert NamePart(q) == NamePart(p);
      assert |q.name| < |p.name|;
    } else {
      var x, y := SplitsAtSlash(p.action.value);
      q := p.(name := p.name + "/" + x, action := Some(y));
      assert ActionPart(q) == ActionPart(p);
      assert |q.name| > |p.name|;
    }
    TagsAside(p, q);
  }

  /** Two issues share a key exactly when they are the same. */
  lemma SameIssueExactly(p: Proposal, q: Proposal)
    ensures IssueKey(p) == IssueKey(q) <==> p.issueId == q.issueId
  {
    assert p.issueId == IssueKey(p)[|"issue:"|..] && q.issueId == IssueKey(q)[|"issue:"|..];
  }

  /** A target is never taken for an issue. */
  lemma TargetIsNoIssue(p: Proposal, q: Proposal)
    requires p.action.Some?
    ensures TargetKey(p) != IssueKey(q)
  {
    assert TargetKey(p)[0] == 't' && IssueKey(q)[0] == 'i';
  }

  // ---------------------------------------------------------------- the notifier

  lemma KnownByKeys(p: Proposal, known: set<string>)
    ensures IsKnown(p, known) <==>
              p.id in known || (p.issueId != "" && IssueKey(p) in known) || (p.action.Some? && TargetKey(p) in known)
  {
    assert p.issueId != "" ==> IssueKey(p) in Keys(p);
    assert p.action.Some? ==> TargetKey(p) in Keys(p);
  }

  lemma SoonByKeys(p: Proposal, recent: Recent, now: Time)
    ensures TooSoon(p, recent, now) <==>
              || (p.action.Some? && TargetKey(p) in recent && now - recent[TargetKey(p)] < DAY)
              || (p.issueId != "" && IssueKey(p) in recent && now - recent[IssueKey(p)] < DAY)
  {
    assert p.issueId != "" ==> IssueKey(p) in Keys(p);
    assert p.action.Some? ==> TargetKey(p) in Keys(p);
  }

  lemma RememberByKeys(p: Proposal, recent: Recent, now: Time)
    ensures var r := if p.action.Some? then recent[TargetKey(p) := now] else recent;
            Remember(recent, Keys(p), now) == if p.issueId != "" then r[IssueKey(p) := now] else r
  {
    var r := if p.action.Some? then recent[TargetKey(p) := now] else recent;
    var r' := if p.issueId != "" then r[IssueKey(p) := now] else r;
    assert Remember(recent, Keys(p), now) == r';
  }

  class Notifier {
    var recent: Recent

    constructor ()
      ensures recent == map[]
    {
      recent := map[];
    }

    /** Forget announcements older than a day, in whatever order the map yields them. */
    method ForgetOld(now: Time)
      modifies this
      ensures recent == Prune(old(recent), now)
    {
      var rest := recent.Keys;
      while rest != {}
        invariant rest <= recent.Keys <= old(recent).Keys
        invariant forall k :: k in recent ==> recent[k] == old(recent)[k]
        invariant forall k :: k in old(recent) && k !in rest ==> (k in recent <==> now - old(recent)[k] <= DAY)
        decreases |rest|
      {
        var k :| k in rest;
        if now - recent[k] > DAY {
          recent := recent - {k};
        }
        rest := rest - {k};
      }
    }

    /** `delivery` is what the transport reports, once it is asked. */
    method NotifyNewProposal(p: Option<Proposal>, known: set<string>, now: Time, delivery: Option<string>)
      returns (known': set<string>, announced: bool, error: Option<string>)
      modifies this
      ensures Answer(recent, known', announced) == Notify(old(recent), known, p, now)
      ensures error == if announced then delivery else None
    {
      error := None;
      if p.None? {
        return known, false, None;
      }
      var proposal := p.value;
      var targetKey := TargetKey(proposal);
      var issueKey := IssueKey(proposal);
      var hasTarget, hasIssue := proposal.action.Some?, proposal.issueId != "";
      KnownByKeys(proposal, known);
      if proposal.id in known || (hasIssue && issueKey in known) || (hasTarget && targetKey in known) {
        return known, false, None;
      }
      ForgetOld(now);
      SoonByKeys(proposal, recent, now);
      if hasTarget && targetKey in recent && now - recent[targetKey] < DAY {
        return known, false, None;
      }
      if hasIssue && issueKey in recent && now - recent[issueKey] < DAY {
        return known, false, None;
      }
      RememberByKeys(proposal, recent, now);
      known' := known + {proposal.id};
      if hasTarget {
        recent := recent[targetKey := now];
        known' := known' + {targetKey};
      }
      if hasIssue {
        recent := recent[issueKey := now];
        known' := known' + {issueKey};
      }
      announced, error := true, delivery;
    }
  }

  // ---------------------------------------------------------------- whole runs

  datatype Announcement = Announcement(at: Time, keys: set<string>)

  /** What has been announced so far, what is remembered of it, and the last instant. */
  datatype History = History(log: seq<Announcement>, recent: Recent, clock: Time)

  /** A call, with whatever its caller already knows. */
  datatype Call = Call(proposal: Option<Proposal>, known: set<string>, now: Time)

  function Next(h: History, c: Call): History {
    var a := Notify(h.recent, c.known, c.proposal, c.now);
    History(if a.announced then h.log + [Announcement(c.now, Keys(c.proposal.value))] else h.log, a.recent, c.now)
  }

  function Run(h: History, calls: seq<Call>): History
    decreases calls
  {
    if calls == [] then h else Run(Next(h, calls[0]), calls[1..])
  }

  /** The clock does not go back. */
  predicate Forward(clock: Time, calls: seq<Call>)
    decreases calls
  {
    calls != [] ==> clock <= calls[0].now && Forward(calls[0].now, calls[1..])
  }

  /** Each key of an announcement is remembered since then, or the announcement is over a day old. */
  predicate Remembered(a: Announcement, recent: Recent, clock: Time) {
    && a.at <= clock
    && forall k :: k in a.keys ==> (k in recent && a.at <= recent[k]) || clock - a.at > DAY
  }

  predicate Announced(log: seq<Announcement>, k: string, at: Time) {
    exists i :: 0 <= i < |log| && log[i].at == at && k in log[i].keys
  }

  predicate Apart(a: Announcement, b: Announcement) {
    a.keys !! b.keys || b.at - a.at >= DAY
  }

  predicate Inv(h: History) {
    && (forall i :: 0 <= i < |h.log| ==> Remembered(h.log[i], h.recent, h.clock))
    && (forall k :: k in h.recent ==> Announced(h.log, k, h.recent[k]))
    && (forall i, j :: 0 <= i < j < |h.log| ==> Apart(h.log[i], h.log[j]))
  }

  lemma PruneRemembers(a: Announcement, recent: Recent, clock: Time, now: Time)
    requires Remembered(a, recent, clock) && clock <= now
    ensures Remembered(a, Prune(recent, now), now)
  {
  }

  lemma RememberKeeps(a: Announcement, recent: Recent, keys: set<string>, now: Time)
    requires Remembered(a, recent, now)
    ensures Remembered(a, Remember(recent, keys, now), now)
  {
  }

  lemma AnnouncedGrows(log: seq<Announcement>, a: Announcement, k: string, at: Time)
    requires Announced(log, k, at)
    ensures Announced(log + [a], k, at)
  {
    var i :| 0 <= i < |log| && log[i].at == at && k in log[i].keys;
    assert (log + [a])[i] == log[i];
  }

  /** What is not too soon is a day after every announcement that shares a key. */
  lemma NotTooSoonIsApart(a: Announcement, p: Proposal, recent: Recent, clock: Time, now: Time)
    requires Remembered(a, recent, clock) && clock <= now && !TooSoon(p, Prune(recent, now), now)
    ensures Apart(a, Announcement(now, Keys(p)))
  {
    PruneRemembers(a, recent, clock, now);
    if k :| k in a.keys && k in Keys(p) {
      assert k in Prune(recent, now) || now - a.at > DAY;
    }
  }

  lemma NextKeepsInv(h: History, c: Call)
    requires Inv(h) && h.clock <= c.now
    ensures Inv(Next(h, c))
  {
    var n := Next(h, c);
    if c.proposal.Some? && !IsKnown(c.proposal.value, c.known) {
      var p, kept := c.proposal.value, Prune(h.recent, c.now);
      forall i | 0 <= i < |h.log|
        ensures Remembered(h.log[i], kept, c.now)
      {
        PruneRemembers(h.log[i], h.recent, h.clock, c.now);
      }
      if !TooSoon(p, kept, c.now) {
        AnnouncingKeepsInv(h, p, c.now);
      }
    }
  }

  lemma AnnouncingKeepsInv(h: History, p: Proposal, now: Time)
    requires Inv(h) && h.clock <= now && !TooSoon(p, Prune(h.recent, now), now)
    ensures Inv(History(h.log + [Announcement(now, Keys(p))], Remember(Prune(h.recent, now), Keys(p), now), now))
  {
    var kept, a := Prune(h.recent, now), Announcement(now, Keys(p));
    var log, recent := h.log + [a], Remember(kept, Keys(p), now);
    forall i | 0 <= i < |log|
      ensures Remembered(log[i], recent, now)
      ensures i < |h.log| ==> Apart(log[i], a)
    {
      if i < |h.log| {
        PruneRemembers(h.log[i], h.recent, h.clock, now);
        RememberKeeps(h.log[i], kept, Keys(p), now);
        NotTooSoonIsApart(h.log[i], p, h.recent, h.clock, now);
      }
    }
    forall k | k in recent
      ensures Announced(log, k, recent[k])
    {
      if k in Keys(p) {
        assert log[|h.log|].at == recent[k];
      } else {
        AnnouncedGrows(h.log, a, k, h.recent[k]);
      }
    }
  }

  /** In any run with a clock that does not go back, announcements that share a key are a day apart. */
  lemma {:induction false} RunKeepsApart(h: History, calls: seq<Call>)
    requires Inv(h) && Forward(h.clock, calls)
    ensures Inv(Run(h, calls))
    decreases calls
  {
    if calls != [] {
      NextKeepsInv(h, calls[0]);
      RunKeepsApart(Next(h, calls[0]), calls[1..]);
    }
  }

  lemma AnnouncementsAreADayApart(calls: seq<Call>, start: Time, i: nat, j: nat)
    requires Forward(start, calls)
    requires i < j < |Run(History([], map[], start), calls).log|
    ensures var log := Run(History([], map[], start), calls).log;
            log[i].keys !! log[j].keys || log[j].at - log[i].at >= DAY
  {
    RunKeepsApart(History([], map[], start), calls);
    assert Apart(Run(History([], map[], start), calls).log[i], Run(History([], map[], start), calls).log[j]);
  }

  /** In any such run a proposal is announced exactly when it is unknown and every announcement sharing a key is a day old. */
  lemma AnnouncedExactly(h: History, c: Call)
    requires Inv(h) && h.clock <= c.now && c.proposal.Some?
    ensures var p := c.proposal.value;
            Notify(h.recent, c.known, c.proposal, c.now).announced <==>
              !IsKnown(p, c.known) && forall i :: 0 <= i < |h.log| ==> Apart(h.log[i], Announcement(c.now, Keys(p)))
  {
    var p := c.proposal.value;
    if !TooSoon(p, Prune(h.recent, c.now), c.now) {
      forall i | 0 <= i < |h.log|
        ensures Apart(h.log[i], Announcement(c.now, Keys(p)))
      {
        NotTooSoonIsApart(h.log[i], p, h.recent, h.clock, c.now);
      }
    } else {
      var kept := Prune(h.recent, c.now);
      var k :| k in Keys(p) && k in kept && c.now - kept[k] < DAY;
      assert Announced(h.log, k, h.recent[k]);
      var i :| 0 <= i < |h.log| && h.log[i].at == h.recent[k] && k in h.log[i].keys;
      assert k in h.log[i].keys * Keys(p);
      assert !Apart(h.log[i], Announcement(c.now, Keys(p)));
    }
  }
}

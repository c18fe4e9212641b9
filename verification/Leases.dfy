/** The outbox under any number of publishers, dying anywhere: claims, handovers and marks over whole runs. */
module Leases {
  import opened Prelude
  import opened Documents
  import opened Envelopes
  import opened Tables
  import opened Stores
  import opened Pipeline
  import opened Lifecycle
  import opened Safety
  import opened Runs

  // ----- counting -----

  function ClaimCount(claims: seq<Claim>, event: nat): nat {
    if claims == [] then 0
    else
      var n := |claims| - 1;
      ClaimCount(claims[..n], event) + if claims[n].lease.event == event then 1 else 0
  }

  lemma {:induction false} ClaimCountConcat(a: seq<Claim>, b: seq<Claim>, event: nat)
    ensures ClaimCount(a + b, event) == ClaimCount(a, event) + ClaimCount(b, event)
  {
    if b == [] {
      assert a + b == a;
    } else {
      var n := |b| - 1;
      assert (a + b)[..|a + b| - 1] == a + b[..n];
      ClaimCountConcat(a, b[..n], event);
    }
  }

  lemma {:induction false} ClaimCountOfIds(outbox: seq<Event>, ids: seq<nat>, now: Time, event: nat)
    requires NoDuplicates(ids)
    ensures ClaimCount(ClaimsOf(LeasesOf(outbox, ids), now), event) == if event in ids then 1 else 0
  {
    if ids != [] {
      var n := |ids| - 1;
      var claims := ClaimsOf(LeasesOf(outbox, ids), now);
      assert claims[..n] == ClaimsOf(LeasesOf(outbox, ids[..n]), now);
      ClaimCountOfIds(outbox, ids[..n], now, event);
      assert ids == ids[..n] + [ids[n]];
    }
  }

  lemma {:induction false} Unclaimed(claims: seq<Claim>, event: nat)
    ensures ClaimCount(claims, event) == 0 <==> forall k :: 0 <= k < |claims| ==> claims[k].lease.event != event
  {
    if claims != [] {
      var n := |claims| - 1;
      Unclaimed(claims[..n], event);
      assert forall k :: 0 <= k < n ==> claims[..n][k] == claims[k];
    }
  }

  // ----- the invariant -----

  /** The claims of each row: as many as its attempt count, over a minute apart, the last of them its lease. */
  ghost predicate ClaimsOk(outbox: seq<Event>, claims: seq<Claim>, now: Time) {
    && (forall i :: 0 <= i < |outbox| ==> outbox[i].attemptCount == ClaimCount(claims, i) && outbox[i].nextAttemptAt.None?)
    && (forall k :: 0 <= k < |claims| ==> claims[k].lease.event < |outbox| && claims[k].at <= now)
    && (forall j, k :: 0 <= j < k < |claims| && claims[j].lease.event == claims[k].lease.event ==>
          claims[j].at + MINUTE < claims[k].at)
    && (forall k :: 0 <= k < |claims| && outbox[claims[k].lease.event].publishedAt.None? ==>
          outbox[claims[k].lease.event].lockedAt.Some? && claims[k].at <= outbox[claims[k].lease.event].lockedAt.value)
    && (forall i :: 0 <= i < |outbox| && outbox[i].lockedAt.Some? ==> LastClaim(claims, i, outbox[i].lockedAt.value))
  }

  ghost predicate LastClaim(claims: seq<Claim>, event: nat, at: Time) {
    exists k :: 0 <= k < |claims| && claims[k].lease.event == event && claims[k].at == at
  }

  predicate LeaseOk(outbox: seq<Event>, l: Lease) {
    l.event < |outbox| && 1 <= l.attempt <= outbox[l.event].attemptCount
  }

  ghost predicate LogOk(outbox: seq<Event>, log: seq<Lease>) {
    && NoDuplicates(log)
    && (forall l <- log :: LeaseOk(outbox, l))
    && (forall i :: 0 <= i < |outbox| && outbox[i].publishedAt.Some? ==> Handed(log, i))
  }

  ghost predicate Handed(log: seq<Lease>, event: nat) {
    exists l :: l in log && l.event == event
  }

  /** The first lease of a poll that it has not handed over. */
  function Pending(p: Poll): nat {
    if p.handed then p.next + 1 else p.next
  }

  ghost predicate PollOk(outbox: seq<Event>, log: seq<Lease>, p: Poll) {
    && NoDuplicates(p.leases) && p.next <= |p.leases|
    && (forall l <- p.leases :: LeaseOk(outbox, l))
    && (p.handed ==> p.next < |p.leases| && p.leases[p.next] in log)
    && (forall k :: Pending(p) <= k < |p.leases| ==> p.leases[k] !in log)
  }

  ghost predicate PollsOk(outbox: seq<Event>, log: seq<Lease>, polls: map<nat, Poll>) {
    && (forall p :: p in polls ==> PollOk(outbox, log, polls[p]))
    && (forall p, q, l :: p in polls && q in polls && l in polls[p].leases && l in polls[q].leases ==> p == q)
  }

  ghost predicate Leased(s: State) {
    ClaimsOk(s.t.outbox, s.claims, s.now) && LogOk(s.t.outbox, s.log) && PollsOk(s.t.outbox, s.log, s.polls)
  }

  // ----- steps that do not poll -----

  predicate Fresh(e: Event) {
    e.publishedAt.None? && e.attemptCount == 0 && e.lockedAt.None? && e.nextAttemptAt.None?
  }

  /** New rows at the end, the others as they were. */
  ghost predicate Appends(a: seq<Event>, b: seq<Event>) {
    && |a| <= |b| && (forall i :: 0 <= i < |a| ==> b[i] == a[i])
    && (forall i :: |a| <= i < |b| ==> Fresh(b[i]))
  }

  lemma AppendKeepsClaims(a: seq<Event>, b: seq<Event>, claims: seq<Claim>, now: Time, later: Time)
    requires ClaimsOk(a, claims, now) && Appends(a, b) && now <= later
    ensures ClaimsOk(b, claims, later)
  {
    forall i | |a| <= i < |b| ensures ClaimCount(claims, i) == 0 {
      Unclaimed(claims, i);
    }
  }

  ghost predicate OnlyAppends(s: State, u: State) {
    Appends(s.t.outbox, u.t.outbox) && s.now <= u.now && u.polls == s.polls && u.log == s.log && u.claims == s.claims
  }

  lemma QuietLeased(s: State, u: State)
    requires Leased(s) && OnlyAppends(s, u)
    ensures Leased(u)
  {
    AppendKeepsClaims(s.t.outbox, u.t.outbox, s.claims, s.now, u.now);
    forall p | p in u.polls ensures PollOk(u.t.outbox, u.log, u.polls[p]) {
      assert PollOk(s.t.outbox, s.log, s.polls[p]);
    }
  }

  predicate Polls(step: Step) {
    step.StartPoll? || step.Produce? || step.Mark? || step.EndPoll?
  }

  predicate Leaves(step: Step) {
    step.Cancel? || step.FinishCancelled? || step.Crash?
  }

  predicate OfRun(step: Step) {
    step.RunInline? || step.RunWorker? || step.KillWorker?
  }

  lemma CommitOnlyAppends(cfg: Config, t: Tables, id: DocId, pc: HandlerPc, now: Time)
    ensures Appends(t.outbox, CommitOf(cfg, t, id, pc, now).outbox)
  {
  }

  lemma LeavingOnlyAppends(cfg: Config, env: Env, s: State, step: Step)
    requires Enabled(env, s, step) && Leaves(step)
    ensures OnlyAppends(s, Apply(cfg, env, s, step))
  {
    CommitOnlyAppends(cfg, s.t, step.id, s.handlers[step.id].pc, s.now);
    match step
    case Cancel(_, _) =>
    case FinishCancelled(_, _) =>
    case Crash(_, _) =>
  }

  lemma RunningOnlyAppends(cfg: Config, env: Env, s: State, step: Step)
    requires Enabled(env, s, step) && OfRun(step)
    ensures OnlyAppends(s, Apply(cfg, env, s, step))
  {
  }

  lemma OthersOnlyAppend(cfg: Config, env: Env, s: State, step: Step)
    requires Enabled(env, s, step) && !Polls(step)
    ensures OnlyAppends(s, Apply(cfg, env, s, step))
  {
    if Leaves(step) {
      LeavingOnlyAppends(cfg, env, s, step);
    } else if OfRun(step) {
      RunningOnlyAppends(cfg, env, s, step);
    }
  }

  // ----- polls -----

  lemma ClaimKeepsCounts(outbox: seq<Event>, claims: seq<Claim>, now: Time, ids: seq<nat>, name: string)
    requires ClaimsOk(outbox, claims, now) && NoDuplicates(ids)
    ensures var after := Claimed(outbox, ids, name, now);
      forall i :: 0 <= i < |after| ==>
        after[i].attemptCount == ClaimCount(claims + ClaimsOf(LeasesOf(outbox, ids), now), i) && after[i].nextAttemptAt.None?
  {
    var news := ClaimsOf(LeasesOf(outbox, ids), now);
    forall i | 0 <= i < |outbox| ensures ClaimCount(claims + news, i) == ClaimCount(claims, i) + if i in ids then 1 else 0 {
      ClaimCountConcat(claims, news, i);
      ClaimCountOfIds(outbox, ids, now, i);
    }
  }

  lemma ClaimKeepsLast(outbox: seq<Event>, claims: seq<Claim>, now: Time, ids: seq<nat>, name: string, i: nat)
    requires ClaimsOk(outbox, claims, now) && i < |outbox|
    requires Claimed(outbox, ids, name, now)[i].lockedAt.Some?
    ensures LastClaim(claims + ClaimsOf(LeasesOf(outbox, ids), now), i, Claimed(outbox, ids, name, now)[i].lockedAt.value)
  {
    var all := claims + ClaimsOf(LeasesOf(outbox, ids), now);
    if i in ids {
      var k :| 0 <= k < |ids| && ids[k] == i;
      assert all[|claims| + k] == Claim(LeasesOf(outbox, ids)[k], now);
    } else {
      assert LastClaim(claims, i, outbox[i].lockedAt.value);
      var k :| 0 <= k < |claims| && claims[k].lease.event == i && claims[k].at == outbox[i].lockedAt.value;
      assert all[k] == claims[k];
    }
  }

  lemma ClaimKeepsSpacing(outbox: seq<Event>, claims: seq<Claim>, now: Time, ids: seq<nat>, j: nat, k: nat)
    requires ClaimsOk(outbox, claims, now) && NoDuplicates(ids)
    requires forall i <- ids :: i < |outbox| && Eligible(outbox[i], now)
    requires j < k < |claims| + |ids|
    ensures var all := claims + ClaimsOf(LeasesOf(outbox, ids), now);
      all[j].lease.event == all[k].lease.event ==> all[j].at + MINUTE < all[k].at
  {
    var news := ClaimsOf(LeasesOf(outbox, ids), now);
    if |claims| <= k {
      assert news[k - |claims|].lease.event == ids[k - |claims|] && ids[k - |claims|] in ids;
    }
  }

  lemma ClaimKeepsClaims(outbox: seq<Event>, claims: seq<Claim>, now: Time, batch: nat, ids: seq<nat>, name: string)
    requires ClaimsOk(outbox, claims, now) && IsClaim(outbox, now, batch, ids)
    ensures ClaimsOk(Claimed(outbox, ids, name, now), claims + ClaimsOf(LeasesOf(outbox, ids), now), now)
  {
    var news := ClaimsOf(LeasesOf(outbox, ids), now);
    var after := Claimed(outbox, ids, name, now);
    var all := claims + news;
    ClaimKeepsCounts(outbox, claims, now, ids, name);
    forall j, k | 0 <= j < k < |all| && all[j].lease.event == all[k].lease.event ensures all[j].at + MINUTE < all[k].at {
      ClaimKeepsSpacing(outbox, claims, now, ids, j, k);
    }
    forall i | 0 <= i < |after| && after[i].lockedAt.Some? ensures LastClaim(all, i, after[i].lockedAt.value) {
      ClaimKeepsLast(outbox, claims, now, ids, name, i);
    }
    forall k | 0 <= k < |all|
      ensures all[k].lease.event < |after| && all[k].at <= now
      ensures var e := after[all[k].lease.event];
        e.publishedAt.None? ==> e.lockedAt.Some? && all[k].at <= e.lockedAt.value
    {
      if |claims| <= k { assert all[k] == news[k - |claims|] && ids[k - |claims|] in ids; }
    }
  }

  lemma ClaimKeepsPolls(outbox: seq<Event>, log: seq<Lease>, polls: map<nat, Poll>, p: nat, now: Time, ids: seq<nat>,
                        name: string)
    requires LogOk(outbox, log) && PollsOk(outbox, log, polls) && p !in polls
    requires NoDuplicates(ids) && forall i <- ids :: i < |outbox|
    ensures var after := Claimed(outbox, ids, name, now);
      LogOk(after, log) && PollsOk(after, log, polls[p := Poll(LeasesOf(outbox, ids), 0, false)])
  {
    var after := Claimed(outbox, ids, name, now);
    var leases := LeasesOf(outbox, ids);
    forall l | l in leases ensures LeaseOk(after, l) && !LeaseOk(outbox, l) {
      var k :| 0 <= k < |leases| && leases[k] == l;
      assert ids[k] in ids;
    }
    forall l | LeaseOk(outbox, l) ensures LeaseOk(after, l) {
    }
    forall q | q in polls ensures PollOk(after, log, polls[q]) {
      assert PollOk(outbox, log, polls[q]);
    }
    assert PollOk(after, log, Poll(leases, 0, false));
  }

  lemma StartPollLeased(cfg: Config, env: Env, s: State, p: nat, name: string, batch: nat, ids: seq<nat>)
    requires Leased(s) && Enabled(env, s, StartPoll(p, name, batch, ids))
    ensures Leased(Apply(cfg, env, s, StartPoll(p, name, batch, ids)))
  {
    ClaimKeepsClaims(s.t.outbox, s.claims, s.now, batch, ids, name);
    ClaimKeepsPolls(s.t.outbox, s.log, s.polls, p, s.now, ids, name);
  }

  lemma ProduceKeepsPolls(outbox: seq<Event>, log: seq<Lease>, polls: map<nat, Poll>, p: nat)
    requires LogOk(outbox, log) && PollsOk(outbox, log, polls)
    requires p in polls && polls[p].next < |polls[p].leases| && !polls[p].handed
    ensures var l := polls[p].leases[polls[p].next];
      LogOk(outbox, log + [l]) && PollsOk(outbox, log + [l], polls[p := polls[p].(handed := true)])
  {
    var l := polls[p].leases[polls[p].next];
    assert PollOk(outbox, log, polls[p]);
    forall i | 0 <= i < |outbox| && outbox[i].publishedAt.Some? ensures Handed(log + [l], i) {
      assert Handed(log, i);
      var m :| m in log && m.event == i;
      assert m in log + [l];
    }
    forall q | q in polls && q != p ensures PollOk(outbox, log + [l], polls[q]) {
      assert PollOk(outbox, log, polls[q]);
      assert l !in polls[q].leases;
    }
    assert PollOk(outbox, log + [l], polls[p].(handed := true));
  }

  lemma ProduceLeased(cfg: Config, env: Env, s: State, p: nat)
    requires Leased(s) && Enabled(env, s, Produce(p))
    ensures Leased(Apply(cfg, env, s, Produce(p)))
  {
    ProduceKeepsPolls(s.t.outbox, s.log, s.polls, p);
  }

  lemma MarkKeepsClaims(outbox: seq<Event>, claims: seq<Claim>, now: Time, i: nat)
    requires ClaimsOk(outbox, claims, now)
    ensures ClaimsOk(MarkedPublished(outbox, i, now), claims, now)
  {
  }

  lemma MarkKeepsPolls(outbox: seq<Event>, log: seq<Lease>, polls: map<nat, Poll>, i: nat, now: Time)
    requires LogOk(outbox, log) && PollsOk(outbox, log, polls) && Handed(log, i)
    ensures LogOk(MarkedPublished(outbox, i, now), log) && PollsOk(MarkedPublished(outbox, i, now), log, polls)
  {
    var after := MarkedPublished(outbox, i, now);
    forall l | LeaseOk(outbox, l) ensures LeaseOk(after, l) {
    }
    forall q | q in polls ensures PollOk(after, log, polls[q]) {
      assert PollOk(outbox, log, polls[q]);
    }
  }

  lemma PollMovesOn(outbox: seq<Event>, log: seq<Lease>, polls: map<nat, Poll>, p: nat)
    requires PollsOk(outbox, log, polls) && p in polls && polls[p].handed
    ensures PollsOk(outbox, log, polls[p := polls[p].(next := polls[p].next + 1, handed := false)])
    ensures PollsOk(outbox, log, polls - {p})
  {
    assert PollOk(outbox, log, polls[p]);
    assert PollOk(outbox, log, polls[p].(next := polls[p].next + 1, handed := false));
  }

  lemma MarkLeased(cfg: Config, env: Env, s: State, p: nat, landed: bool, raises: bool)
    requires Leased(s) && Enabled(env, s, Mark(p, landed, raises))
    ensures Leased(Apply(cfg, env, s, Mark(p, landed, raises)))
  {
    var poll := s.polls[p];
    assert PollOk(s.t.outbox, s.log, poll);
    var event := poll.leases[poll.next].event;
    assert Handed(s.log, event);
    MarkKeepsClaims(s.t.outbox, s.claims, s.now, event);
    MarkKeepsPolls(s.t.outbox, s.log, s.polls, event, s.now);
    PollMovesOn(Apply(cfg, env, s, Mark(p, landed, raises)).t.outbox, s.log, s.polls, p);
  }

  lemma StepKeepsLeased(cfg: Config, env: Env, s: State, step: Step)
    requires Leased(s) && Enabled(env, s, step)
    ensures Leased(Apply(cfg, env, s, step))
  {
    if !Polls(step) {
      OthersOnlyAppend(cfg, env, s, step);
      QuietLeased(s, Apply(cfg, env, s, step));
    } else {
      match step
      case StartPoll(p, name, batch, ids) => StartPollLeased(cfg, env, s, p, name, batch, ids);
      case Produce(p) => ProduceLeased(cfg, env, s, p);
      case Mark(p, landed, raises) => MarkLeased(cfg, env, s, p, landed, raises);
      case EndPoll(p) =>
    }
  }

  lemma {:induction false} RunKeepsLeased(cfg: Config, env: Env, s: State, steps: seq<Step>)
    requires Leased(s) && Possible(cfg, env, s, steps)
    ensures Leased(After(cfg, env, s, steps))
    decreases |steps|
  {
    if steps != [] {
      StepKeepsLeased(cfg, env, s, steps[0]);
      RunKeepsLeased(cfg, env, Apply(cfg, env, s, steps[0]), steps[1..]);
    }
  }

  // ----- what holds of every run -----

  /** Claims of a row are counted by its attempt count, and lie more than a minute apart. */
  lemma {:induction false} ClaimsOfARow(cfg: Config, env: Env, steps: seq<Step>, i: nat)
    requires Possible(cfg, env, INITIAL, steps) && i < |After(cfg, env, INITIAL, steps).t.outbox|
    ensures var s := After(cfg, env, INITIAL, steps);
      && s.t.outbox[i].attemptCount == ClaimCount(s.claims, i)
      && forall j, k :: 0 <= j < k < |s.claims| && s.claims[j].lease.event == i && s.claims[k].lease.event == i ==>
           s.claims[j].at + MINUTE < s.claims[k].at
  {
    RunKeepsLeased(cfg, env, INITIAL, steps);
  }

  /** The claims under which a row was handed to the producer. */
  function Handovers(log: seq<Lease>, event: nat): seq<nat> {
    if log == [] then []
    else
      var n := |log| - 1;
      Handovers(log[..n], event) + if log[n].event == event then [log[n].attempt] else []
  }

  lemma {:induction false} HandoversDiffer(log: seq<Lease>, event: nat)
    requires NoDuplicates(log)
    ensures NoDuplicates(Handovers(log, event))
    ensures forall a :: a in Handovers(log, event) ==> Lease(event, a) in log
  {
    if log != [] {
      var n := |log| - 1;
      HandoversDiffer(log[..n], event);
      assert log == log[..n] + [log[n]];
      assert log[n] !in log[..n];
    }
  }

  lemma {:induction false} UpTo(n: nat) returns (s: set<nat>)
    ensures |s| == n && forall a: nat :: a in s <==> 1 <= a <= n
  {
    s := {};
    if n > 0 {
      var r := UpTo(n - 1);
      s := r + {n};
    }
  }

  /** A row is handed to the producer at most once per claim, so at most as often as it was claimed. */
  lemma {:induction false} HandedAtMostOncePerClaim(cfg: Config, env: Env, steps: seq<Step>, i: nat)
    requires Possible(cfg, env, INITIAL, steps) && i < |After(cfg, env, INITIAL, steps).t.outbox|
    ensures var s := After(cfg, env, INITIAL, steps);
      NoDuplicates(Handovers(s.log, i)) && |Handovers(s.log, i)| <= s.t.outbox[i].attemptCount
  {
    RunKeepsLeased(cfg, env, INITIAL, steps);
    var s := After(cfg, env, INITIAL, steps);
    var attempts := Handovers(s.log, i);
    HandoversDiffer(s.log, i);
    DistinctCount(attempts);
    var range := UpTo(s.t.outbox[i].attemptCount);
    forall a | a in Members(attempts) ensures a in range {
      assert LeaseOk(s.t.outbox, Lease(i, a));
    }
    SubsetCount(Members(attempts), range);
  }

  /** What is marked published was handed to the producer before. */
  lemma {:induction false} PublishedWasHanded(cfg: Config, env: Env, steps: seq<Step>, i: nat)
    requires Possible(cfg, env, INITIAL, steps) && i < |After(cfg, env, INITIAL, steps).t.outbox|
    ensures var s := After(cfg, env, INITIAL, steps);
      s.t.outbox[i].publishedAt.Some? ==> Handovers(s.log, i) != []
  {
    RunKeepsLeased(cfg, env, INITIAL, steps);
    var s := After(cfg, env, INITIAL, steps);
    if s.t.outbox[i].publishedAt.Some? {
      assert Handed(s.log, i);
      var l :| l in s.log && l.event == i;
      HandedShows(s.log, l);
    }
  }

  lemma {:induction false} HandedShows(log: seq<Lease>, l: Lease)
    requires l in log
    ensures l.attempt in Handovers(log, l.event)
  {
    var n := |log| - 1;
    assert log == log[..n] + [log[n]];
    if l != log[n] {
      HandedShows(log[..n], l);
    }
  }

  /** A row can be claimed exactly when it is unpublished and its last claim, if any, is more than a minute old: a
    * publisher that dies holding it delays it by no more than that. */
  lemma {:induction false} ClaimableIff(cfg: Config, env: Env, steps: seq<Step>, i: nat)
    requires Possible(cfg, env, INITIAL, steps) && i < |After(cfg, env, INITIAL, steps).t.outbox|
    ensures var s := After(cfg, env, INITIAL, steps);
      Eligible(s.t.outbox[i], s.now) <==>
        && s.t.outbox[i].publishedAt.None?
        && forall k :: 0 <= k < |s.claims| && s.claims[k].lease.event == i ==> s.claims[k].at + MINUTE < s.now
  {
    RunKeepsLeased(cfg, env, INITIAL, steps);
    var s := After(cfg, env, INITIAL, steps);
    EligibleIff(s.t.outbox, s.claims, s.now, i);
  }

  lemma EligibleIff(outbox: seq<Event>, claims: seq<Claim>, now: Time, i: nat)
    requires ClaimsOk(outbox, claims, now) && i < |outbox|
    ensures Eligible(outbox[i], now) <==>
        && outbox[i].publishedAt.None?
        && forall k :: 0 <= k < |claims| && claims[k].lease.event == i ==> claims[k].at + MINUTE < now
  {
    if outbox[i].lockedAt.Some? {
      assert LastClaim(claims, i, outbox[i].lockedAt.value);
    }
  }

  // ----- rows over time -----

  /** Rows stay, their payloads never change, and a published one is neither claimed nor changed any more. */
  ghost predicate Lasts(a: seq<Event>, b: seq<Event>) {
    |a| <= |b| && forall i :: 0 <= i < |a| ==>
      && b[i].docId == a[i].docId && b[i].payload == a[i].payload && b[i].topic == a[i].topic
      && b[i].createdAt == a[i].createdAt && a[i].attemptCount <= b[i].attemptCount
      && (a[i].publishedAt.Some? ==> b[i].publishedAt.Some? && b[i].attemptCount == a[i].attemptCount)
  }

  lemma StepLasts(cfg: Config, env: Env, s: State, step: Step)
    requires Enabled(env, s, step)
    ensures Lasts(s.t.outbox, Apply(cfg, env, s, step).t.outbox)
  {
    if !Polls(step) {
      OthersOnlyAppend(cfg, env, s, step);
    }
  }

  /** Over any run, no row of the outbox disappears or changes its payload, and a published row is never claimed again. */
  lemma {:induction false} RowsLast(cfg: Config, env: Env, s: State, steps: seq<Step>)
    requires Possible(cfg, env, s, steps)
    ensures Lasts(s.t.outbox, After(cfg, env, s, steps).t.outbox)
    decreases |steps|
  {
    if steps != [] {
      StepLasts(cfg, env, s, steps[0]);
      RowsLast(cfg, env, Apply(cfg, env, s, steps[0]), steps[1..]);
    }
  }
}

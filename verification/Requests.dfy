/** Requests for breakpoints on code that may not be loaded yet: whose every breakpoint of
    the table is, and what watching the dynamic loader does to a session. */
module Requests {
  import opened Base
  import opened Tracee
  import opened Overlay
  import opened Kernel
  import opened Session
  import opened Outcomes
  import opened Resuming
  import opened Worlds
  import opened Debugging
  import opened Driver
  import opened SourceMotion

  datatype Target = SymbolTarget(symbol: string) | SourceTarget(file: string, line: nat)

  datatype Request = Request(target: Target, address: Option<nat>, breakpoint: Option<nat>)

  /** What the executable, the mapped files and the loader's rendezvous structure say.
      What is mapped depends on the moment, the clock of the machine. */
  datatype Loader = Loader(
    resolve: (Target, nat) -> Result<Option<nat>>,
    entry: nat -> Result<nat>,
    rendezvous: (Cpu, nat) -> Result<Option<nat>>,
    loaderBreak: (Cpu, nat) -> Result<nat>,
    settled: (Cpu, nat) -> Result<bool>)

  /** Every address the loader's data may lead to is one the program only fetches. */
  ghost predicate LeadsInto(loader: Loader, code: set<int>) {
    && (forall t, now :: loader.resolve(t, now).Ok? && loader.resolve(t, now).value.Some? ==>
          loader.resolve(t, now).value.value in code)
    && (forall now :: loader.entry(now).Ok? ==> loader.entry(now).value in code)
    && (forall c, at :: loader.loaderBreak(c, at).Ok? ==> loader.loaderBreak(c, at).value in code)
  }

  lemma EntryIsCode(loader: Loader, code: set<int>, now: nat)
    requires LeadsInto(loader, code)
    ensures loader.entry(now).Ok? ==> loader.entry(now).value in code
  {
  }

  lemma ResolvesInto(loader: Loader, code: set<int>, target: Target, now: nat)
    requires LeadsInto(loader, code)
    ensures loader.resolve(target, now).Ok? && loader.resolve(target, now).value.Some? ==>
      loader.resolve(target, now).value.value in code
  {
  }

  ghost predicate NeverSettled(loader: Loader) {
    forall c, at :: loader.settled(c, at) == Ok(false)
  }

  // ----- one request -----

  /** The debugger's table holds the breakpoint of this request at its address. */
  predicate Held(q: Request, ids: map<nat, int>) {
    q.breakpoint.Some? && q.address.Some? && q.breakpoint.value in ids && ids[q.breakpoint.value] == q.address.value
  }

  /** The one thing a reconciliation overlooks: a breakpoint that was taken out of the
      debugger's table although its target still resolves to the same address. */
  predicate Overlooked(q: Request, ids: map<nat, int>, resolved: Option<nat>) {
    q.breakpoint.Some? && q.address == resolved && !Held(q, ids)
  }

  /** A request has a breakpoint exactly when its target resolves, at the resolved
      address, and the table holds it, unless it was overlooked. */
  predicate Converged(q0: Request, ids0: map<nat, int>, resolved: Option<nat>, q: Request, ids: map<nat, int>) {
    && q.target == q0.target
    && (q.breakpoint.Some? <==> resolved.Some?)
    && (resolved.Some? ==> q.address == resolved && (Held(q, ids) <==> !Overlooked(q0, ids0, resolved)))
  }

  lemma ConvergedFrom(q0: Request, ids0: map<nat, int>, ids1: map<nat, int>, resolved: Option<nat>, q: Request,
                      ids: map<nat, int>)
    requires Converged(q0, ids1, resolved, q, ids) && Held(q0, ids0) == Held(q0, ids1)
    ensures Converged(q0, ids0, resolved, q, ids)
  {
  }

  /** A request with breakpoint `b` lost it, or got breakpoint `nextId` for it, or neither. */
  predicate Rebound(b: Option<nat>, ids: map<nat, int>, nextId: nat, q: Request, ids': map<nat, int>) {
    var left := if b.Some? then ids - {b.value} else ids;
    || (q.breakpoint == b && ids' == ids)
    || (q.breakpoint.None? && ids' == left)
    || (q.breakpoint == Some(nextId) && nextId !in ids && q.address.Some? && ids' == left[nextId := q.address.value])
  }

  // ----- whose breakpoint an id is -----

  /** No id is used twice. */
  ghost predicate Ledger(requests: map<nat, Request>, internal: (Option<nat>, Option<nat>), nextId: nat) {
    && (forall i :: i in requests && requests[i].breakpoint.Some? ==>
          && requests[i].address.Some?
          && requests[i].breakpoint.value < nextId
          && requests[i].breakpoint != internal.0 && requests[i].breakpoint != internal.1)
    && (forall i, j :: i in requests && j in requests && i != j && requests[i].breakpoint.Some? ==>
          requests[i].breakpoint != requests[j].breakpoint)
    && (internal.0.Some? ==> internal.0.value < nextId && internal.0 != internal.1)
    && (internal.1.Some? ==> internal.1.value < nextId)
  }

  lemma AnswersRequest(requests: map<nat, Request>, internal: (Option<nat>, Option<nat>), nextId: nat, at: nat, q: Request)
    requires Ledger(requests, internal, nextId) && q.address.Some?
    requires q.breakpoint == Some(nextId)
    ensures Ledger(requests[at := q], internal, nextId + 1) && Ledger(requests, internal, nextId + 1)
  {
  }

  lemma Unanswers(requests: map<nat, Request>, internal: (Option<nat>, Option<nat>), nextId: nat, at: nat, q: Request)
    requires Ledger(requests, internal, nextId) && q.breakpoint.None?
    ensures Ledger(requests[at := q], internal, nextId)
  {
  }

  lemma Withdraws(requests: map<nat, Request>, internal: (Option<nat>, Option<nat>), nextId: nat, at: nat)
    requires Ledger(requests, internal, nextId)
    ensures Ledger(requests - {at}, internal, nextId)
  {
  }

  lemma OwnIds(requests: map<nat, Request>, internal: (Option<nat>, Option<nat>), nextId: nat, at: nat)
    requires Ledger(requests, internal, nextId) && at in requests
    ensures requests[at].breakpoint.Some? ==> requests[at].address.Some?
    ensures forall j :: j in requests && requests[j].breakpoint.Some? ==>
      requests[j].breakpoint.value < nextId && (j != at ==> requests[j].breakpoint != requests[at].breakpoint)
  {
  }

  predicate Requested(requests: map<nat, Request>, id: nat) {
    exists i :: i in requests && requests[i].breakpoint == Some(id)
  }

  /** The breakpoints of the table that are neither a request's nor internal. */
  function Unclaimed(ids: map<nat, int>, requests: map<nat, Request>, internal: (Option<nat>, Option<nat>)): set<nat> {
    set i | i in ids && !Requested(requests, i) && Some(i) != internal.0 && Some(i) != internal.1
  }

  function BreakpointOf(requests: map<nat, Request>, at: nat): Option<nat> {
    if at in requests then requests[at].breakpoint else None
  }

  lemma RequestedAfter(requests: map<nat, Request>, at: nat, q: Request, i: nat)
    requires q.breakpoint != Some(i) && BreakpointOf(requests, at) != Some(i)
    ensures Requested(requests[at := q], i) == Requested(requests, i) == Requested(requests - {at}, i)
  {
    var changed, without := requests[at := q], requests - {at};
    if Requested(changed, i) {
      var k :| k in changed && changed[k].breakpoint == Some(i);
      assert k in requests && requests[k].breakpoint == Some(i);
    }
    if Requested(requests, i) {
      var k :| k in requests && requests[k].breakpoint == Some(i);
      assert k in changed && changed[k].breakpoint == Some(i);
      assert k in without && without[k].breakpoint == Some(i);
    }
    if Requested(without, i) {
      var k :| k in without && without[k].breakpoint == Some(i);
      assert k in requests && requests[k].breakpoint == Some(i);
    }
  }

  lemma ReboundClaims(ids: map<nat, int>, requests: map<nat, Request>, internal: (Option<nat>, Option<nat>), nextId: nat,
                      at: nat, q: Request, ids': map<nat, int>)
    requires Ledger(requests, internal, nextId) && Rebound(BreakpointOf(requests, at), ids, nextId, q, ids')
    ensures Unclaimed(ids', requests[at := q], internal) == Unclaimed(ids, requests, internal)
  {
    var b, requests' := BreakpointOf(requests, at), requests[at := q];
    assert at in requests' && requests'[at] == q;
    forall i: nat
      ensures i in Unclaimed(ids', requests', internal) <==> i in Unclaimed(ids, requests, internal)
    {
      if q.breakpoint == Some(i) {
        assert Requested(requests', i);
        if b == Some(i) {
          assert Requested(requests, i);
        }
      } else if b == Some(i) {
        assert Requested(requests, i) && i !in ids';
      } else {
        RequestedAfter(requests, at, q, i);
      }
    }
  }

  lemma WithdrawnClaims(ids: map<nat, int>, requests: map<nat, Request>, internal: (Option<nat>, Option<nat>), nextId: nat,
                        at: nat, ids': map<nat, int>)
    requires Ledger(requests, internal, nextId) && at in requests
    requires ids' == if requests[at].breakpoint.Some? then ids - {requests[at].breakpoint.value} else ids
    ensures Unclaimed(ids', requests - {at}, internal) == Unclaimed(ids, requests, internal)
  {
    forall i: nat
      ensures i in Unclaimed(ids', requests - {at}, internal) <==> i in Unclaimed(ids, requests, internal)
    {
      if requests[at].breakpoint == Some(i) {
        assert Requested(requests, i);
      } else {
        RequestedAfter(requests, at, Request(requests[at].target, None, None), i);
      }
    }
  }

  /** A new loader breakpoint leaves the old one to nobody, if there was one. */
  lemma LoaderClaims(ids: map<nat, int>, requests: map<nat, Request>, internal: (Option<nat>, Option<nat>), nextId: nat, a: int)
    requires Ledger(requests, internal, nextId) && nextId !in ids
    ensures Unclaimed(ids[nextId := a], requests, (Some(nextId), internal.1)) ==
            Unclaimed(ids, requests, internal) + if internal.0.Some? && internal.0.value in ids then {internal.0.value} else {}
  {
    if internal.0.Some? {
      assert !Requested(requests, internal.0.value);
    }
  }

  lemma BootstrapClaims(ids: map<nat, int>, requests: map<nat, Request>, internal: (Option<nat>, Option<nat>), nextId: nat,
                        a: int)
    requires Ledger(requests, internal, nextId) && nextId !in ids && internal.1.None?
    ensures Unclaimed(ids[nextId := a], requests, (internal.0, Some(nextId))) == Unclaimed(ids, requests, internal)
  {
    assert !Requested(requests, nextId);
  }

  /** An internal breakpoint that is taken out of the table can be forgotten. */
  lemma ForgottenClaims(ids: map<nat, int>, requests: map<nat, Request>, id: nat, other: Option<nat>)
    ensures Unclaimed(ids - {id}, requests, (None, other)) == Unclaimed(ids, requests, (Some(id), other))
    ensures Unclaimed(ids - {id}, requests, (other, None)) == Unclaimed(ids, requests, (other, Some(id)))
  {
  }

  // ----- the ids of the other processes -----

  /** The breakpoints of the processes that are not looked at. */
  ghost function OthersIds(s: State): set<nat> {
    set p, i | p in s.retained && i in s.retained[p].ids :: i
  }

  lemma OthersAfterOutcome(s: State, policy: FollowPolicy, s': State, info: StopInfo)
    requires Outcome(s, policy, s', info)
    ensures OthersIds(s') <= OthersIds(s)
    ensures info.reason in {ProcessExited, ProcessSignaled} ==> s'.active.ids.Keys <= OthersIds(s)
  {
    hide Logical, OthersKept;
  }

  lemma OthersAfterContinue(s: State, policy: FollowPolicy, start: State, stopped: State, s': State, info: StopInfo)
    requires AfterContinue(s, policy, start, stopped, s', info)
    ensures OthersIds(s') <= OthersIds(s)
    ensures s'.active.ids == s.active.ids || s'.active.ids.Keys <= OthersIds(s)
    ensures !Replaced(info) ==> s'.active.ids == s.active.ids
  {
    IdsCarryOver(s, policy, start, stopped, s', info);
    OthersStay(s, policy, start, stopped, s', info);
    hide Outcome, AfterContinue, OthersIds;
    OthersAfterOutcome(start, policy, stopped, info);
    if info.reason == ExecStopped {
      assert s'.active.ids.Keys == {};
    }
  }

  lemma OthersStay(s: State, policy: FollowPolicy, start: State, stopped: State, s': State, info: StopInfo)
    requires AfterContinue(s, policy, start, stopped, s', info)
    ensures start.retained == s.retained && s'.retained == stopped.retained && s'.active.ids == stopped.active.ids
    ensures Outcome(start, policy, stopped, info)
    ensures OthersIds(s') == OthersIds(stopped) && OthersIds(start) == OthersIds(s)
  {
    hide Outcome;
  }

  // ----- moments -----

  /** What a `DeferredBreakpoints` remembers. */
  datatype Desk = Desk(
    requests: map<nat, Request>,
    rendezvous: Option<nat>,
    loaderId: Option<nat>,
    loaderAddress: Option<nat>,
    bootstrapId: Option<nat>,
    bootstrapAddress: Option<nat>)

  /** That, the debugger's tables with the tasks, the fork policy, and the time. */
  datatype Moment = Moment(desk: Desk, view: State, policy: FollowPolicy, now: nat)

  function Internal(d: Desk): (Option<nat>, Option<nat>) {
    (d.loaderId, d.bootstrapId)
  }

  function Unowned(m: Moment): set<nat> {
    Unclaimed(m.view.active.ids, m.desk.requests, Internal(m.desk))
  }

  predicate IsStopped(m: Moment) {
    m.view.active.process.state == Stopped
  }

  function HereAt(s: State): Result<Cpu> {
    if s.active.process.state == Stopped && s.active.process.pid in s.tasks then Ok(s.tasks[s.active.process.pid].cpu)
    else Err(LogicError)
  }

  /** The same process is looked at, the others are as they were, and no time has passed. */
  predicate SameProcess(m: Moment, m': Moment) {
    && m'.view.active.process == m.view.active.process && m'.view.retained == m.view.retained
    && m'.policy == m.policy && m'.now == m.now
  }

  /** No program has noticed anything. */
  predicate Unseen(m: Moment, m': Moment) {
    && m.view.active.process.pid !in m.view.retained && m'.view.active.process.pid !in m'.view.retained
    && WorldOf(m'.view, m'.policy) == WorldOf(m.view, m.policy)
  }

  /** A breakpoint can be set at this address now. */
  ghost predicate CanArm(s: State, policy: FollowPolicy, a: int) {
    && !(policy == FollowBoth && s.retained == map[])
    && s.active.process.state == Stopped && a !in s.active.table
    && s.active.process.pid in s.tasks && Mapped(ActiveTask(s).cpu.mem, a, WORD)
  }

  /** The one state is the other with a breakpoint set at `a`. */
  ghost predicate IsArmed(s: State, a: int, s': State) {
    s.active.process.pid in s.tasks && a in ActiveTask(s).cpu.mem && s' == Armed(s, a)
  }

  /** The state without a breakpoint, if it is there. */
  function Without(s: State, id: nat): State {
    if id in s.active.ids && (s.active.process.state == Stopped ==> s.active.process.pid in s.tasks)
    then Removed(s, id) else s
  }

  /** Internal breakpoints are taken out of stopped processes only. */
  function WithoutInternal(s: State, id: Option<nat>): State {
    if id.Some? && s.active.process.state == Stopped then Without(s, id.value) else s
  }

  /** Nothing internal is set or remembered. */
  function Suspended(m: Moment): Moment {
    Moment(m.desk.(loaderId := None, loaderAddress := None, bootstrapId := None, bootstrapAddress := None),
           WithoutInternal(WithoutInternal(m.view, m.desk.loaderId), m.desk.bootstrapId), m.policy, m.now)
  }

  // ----- watching the loader -----

  /** Where the loader reports changes, if it can be asked. */
  function BreakAt(loader: Loader, m: Moment): Option<nat> {
    var here := HereAt(m.view);
    if here.Err? then None else
    var slot := loader.rendezvous(here.value, m.now);
    if slot.Ok? && slot.value.Some? && loader.loaderBreak(here.value, slot.value.value).Ok?
    then Some(loader.loaderBreak(here.value, slot.value.value).value) else None
  }

  /** The loader can be asked and watched. */
  ghost predicate LoaderReady(loader: Loader, m: Moment) {
    BreakAt(loader, m).Some? && CanArm(m.view, m.policy, BreakAt(loader, m).value)
  }

  /** The loader has not come up yet. */
  predicate Dormant(loader: Loader, m: Moment) {
    HereAt(m.view).Ok? && loader.rendezvous(HereAt(m.view).value, m.now) == Ok(None)
  }

  predicate Unmonitored(d: Desk) {
    d.loaderId.None? && d.bootstrapId.None?
  }

  /** It has not come up, but the entry point cannot be watched: there is a breakpoint
      there already, or no memory. */
  ghost predicate Blocked(loader: Loader, m: Moment) {
    && Unmonitored(m.desk) && Dormant(loader, m)
    && loader.entry(m.now).Ok? && !CanArm(m.view, m.policy, loader.entry(m.now).value)
  }

  /** Monitoring is on, or can be begun. */
  ghost predicate Monitorable(loader: Loader, m: Moment) {
    || !Unmonitored(m.desk)
    || LoaderReady(loader, m)
    || (Dormant(loader, m) && loader.entry(m.now).Ok? && CanArm(m.view, m.policy, loader.entry(m.now).value))
  }

  /** No address of a bootstrap breakpoint is remembered that was never set. */
  predicate Tidy(d: Desk) {
    (d.bootstrapAddress.Some? ==> d.bootstrapId.Some?) && (d.bootstrapId.Some? ==> d.bootstrapAddress.Some? && d.loaderId.None?)
  }

  /** No such address is remembered while a loader breakpoint is set. */
  predicate Unconfused(d: Desk) {
    d.loaderId.Some? ==> d.bootstrapAddress.None?
  }

  /** A loader breakpoint will be set although a bootstrap address is still remembered. */
  ghost predicate Confuses(loader: Loader, m: Moment) {
    Unmonitored(m.desk) && m.desk.bootstrapAddress.Some? && LoaderReady(loader, m)
  }

  /** The moment with a loader breakpoint set. */
  ghost predicate Watches(loader: Loader, m: Moment, m': Moment) {
    && HereAt(m.view).Ok? && BreakAt(loader, m).Some? && IsArmed(m.view, BreakAt(loader, m).value, m'.view)
    && m'.desk == m.desk.(rendezvous := loader.rendezvous(HereAt(m.view).value, m.now).value,
                          loaderId := Some(m.view.nextId), loaderAddress := BreakAt(loader, m))
    && m'.policy == m.policy && m'.now == m.now
  }

  /** What beginning to monitor the loader does, whether it succeeds or is undone. */
  ghost predicate Monitors(loader: Loader, m: Moment, m': Moment, ok: bool) {
    && (ok <==> Monitorable(loader, m))
    && (ok ==> !Unmonitored(m'.desk))
    && (ok && !Unmonitored(m.desk) ==> m' == m)
    && (Unmonitored(m.desk) && LoaderReady(loader, m) ==> Watches(loader, m, m'))
    && (!ok ==> m'.desk.loaderId == m.desk.loaderId && m'.desk.bootstrapId == m.desk.bootstrapId)
    && (Blocked(loader, m) ==> m'.desk.bootstrapAddress == Some(loader.entry(m.now).value))
    && (Tidy(m.desk) ==> (Tidy(m'.desk) <==> !Blocked(loader, m)))
    && (Unconfused(m.desk) ==> (Unconfused(m'.desk) <==> !Confuses(loader, m)))
  }

  // ----- a new request -----

  /** The target is new, and its breakpoint can be set if it resolves. */
  ghost predicate Admitted(loader: Loader, m: Moment, target: Target) {
    var resolved := loader.resolve(target, m.now);
    && IsStopped(m) && (forall i :: i in m.desk.requests ==> m.desk.requests[i].target != target)
    && resolved.Ok? && (resolved.value.Some? ==> CanArm(m.view, m.policy, resolved.value.value))
  }

  function Entered(m: Moment, at: nat, q: Request): Moment {
    m.(desk := m.desk.(requests := m.desk.requests[at := q]))
  }

  /** The moment with this request answered, and its loader not monitored yet. */
  function With(loader: Loader, m: Moment, target: Target, at: nat): Moment {
    var resolved := loader.resolve(target, m.now);
    if resolved.Ok? && resolved.value.Some?
       && m.view.active.process.pid in m.view.tasks && resolved.value.value in ActiveTask(m.view).cpu.mem
    then Entered(m, at, Request(target, resolved.value, Some(m.view.nextId))).(view := Armed(m.view, resolved.value.value))
    else Entered(m, at, Request(target, None, None))
  }

  /** What asking for a breakpoint does: no program notices; a target that is not admitted
      changes nothing; an admitted one is answered, and then the loader is monitored or
      the answer taken back. */
  ghost predicate Adds(loader: Loader, m: Moment, target: Target, at: nat, m': Moment, r: Result<nat>) {
    && SameProcess(m, m') && Unseen(m, m') && Unowned(m') == Unowned(m)
    && (!Admitted(loader, m, target) ==> r.Err? && m' == m)
    && (Admitted(loader, m, target) ==> Monitors(loader, With(loader, m, target, at), m', r.Ok?))
    && (r.Err? ==>
          && m'.desk.requests == m.desk.requests && m'.view.active.ids == m.view.active.ids
          && (loader.resolve(target, m.now) == Ok(None) ==> m'.view == m.view))
    && (r.Ok? ==>
          && r.value == at && at !in m.desk.requests && at in m'.desk.requests
          && m'.desk.requests == m.desk.requests[at := m'.desk.requests[at]]
          && Answered(loader, target, m.now, m'.desk.requests[at], m'.view.active.ids))
  }

  /** The request has a breakpoint, held by the table, exactly when its target resolves. */
  predicate Answered(loader: Loader, target: Target, now: nat, q: Request, ids: map<nat, int>) {
    var resolved := loader.resolve(target, now);
    && q.target == target && resolved.Ok? && q.address == resolved.value
    && (q.breakpoint.Some? <==> resolved.value.Some?) && (resolved.value.Some? ==> Held(q, ids))
  }

  // ----- bringing requests up to date -----

  /** The installed breakpoint of a request whose target has moved or gone: the address,
      if the request goes through this reconciliation. */
  function Stale(loader: Loader, m: Moment, at: nat): set<int> {
    if at in m.desk.requests && m.desk.requests[at].breakpoint.Some? then
      var q, d := m.desk.requests[at], m.view.active;
      var b := q.breakpoint.value;
      if b in d.ids && d.ids[b] in d.table && d.table[d.ids[b]].installed
         && loader.resolve(q.target, m.now).Ok? && loader.resolve(q.target, m.now).value != q.address
      then {d.ids[b]} else {}
    else {}
  }

  function StaleBelow(loader: Loader, m: Moment, n: nat): set<int> {
    if n == 0 then {} else StaleBelow(loader, m, n - 1) + Stale(loader, m, n - 1)
  }

  /** The table entry of a breakpoint is as it was. */
  predicate SameEntry(d: Domain, d': Domain, b: nat) {
    && (b in d.ids <==> b in d'.ids)
    && (b in d.ids ==> d'.ids[b] == d.ids[b])
    && (b in d.ids && d.ids[b] in d.table ==> d.ids[b] in d'.table && d'.table[d.ids[b]] == d.table[d.ids[b]])
  }

  /** The entries of all breakpoints below `limit` are as they were, but for one. */
  predicate EntriesKept(d: Domain, d': Domain, except: Option<nat>, limit: nat) {
    forall b: nat :: b < limit && except != Some(b) ==> SameEntry(d, d', b)
  }

  lemma OwnEntriesKept(d: Domain, except: Option<nat>, limit: nat)
    ensures EntriesKept(d, d, except, limit)
  {
  }

  lemma EntriesStillKept(d: Domain, d': Domain, d'': Domain, except: Option<nat>, limit: nat)
    requires EntriesKept(d, d', except, limit) && EntriesKept(d', d'', None, limit)
    ensures EntriesKept(d, d'', except, limit)
  {
    forall b: nat | b < limit && except != Some(b)
      ensures SameEntry(d, d'', b)
    {
      assert SameEntry(d, d', b) && SameEntry(d', d'', b);
    }
  }

  predicate EntriesAgree(d: Domain) {
    forall i :: i in d.ids ==> d.ids[i] in d.table
  }

  lemma StoppedEntriesAgree(s: State)
    requires Consistent(s) && s.active.process.state == Stopped
    ensures EntriesAgree(s.active)
  {
    StoppedIsActive(s);
    hide Overlaid, OutIffPending, Settled;
  }

  /** Discarding one breakpoint keeps the entries of the others. */
  lemma ErasingKeepsEntries(s: State, id: nat)
    requires Consistent(s) && s.active.process.state == Stopped && id in s.active.ids
    ensures EntriesKept(s.active, ErasedDomain(s.active, id), Some(id), s.nextId)
  {
    StoppedIsActive(s);
    hide Overlaid, OutIffPending, Settled;
  }

  lemma ArmingKeepsEntries(s: State, a: int, s': State)
    requires IsArmed(s, a, s') && a !in s.active.table && s.nextId !in s.active.ids
    ensures EntriesKept(s.active, s'.active, None, s.nextId)
  {
  }

  lemma SameStale(loader: Loader, m: Moment, m': Moment, at: nat)
    requires at in m.desk.requests && at in m'.desk.requests && m'.desk.requests[at] == m.desk.requests[at] && m'.now == m.now
    requires m.desk.requests[at].breakpoint.Some? ==>
      && SameEntry(m.view.active, m'.view.active, m.desk.requests[at].breakpoint.value)
      && (m.desk.requests[at].breakpoint.value in m.view.active.ids ==>
            m.view.active.ids[m.desk.requests[at].breakpoint.value] in m.view.active.table)
    ensures Stale(loader, m', at) == Stale(loader, m, at)
  {
  }

  lemma {:induction false} StaleIsInstalled(loader: Loader, m: Moment, n: nat)
    ensures forall a :: a in StaleBelow(loader, m, n) ==> a in m.view.active.table && m.view.active.table[a].installed
  {
    if n > 0 {
      StaleIsInstalled(loader, m, n - 1);
    }
  }

  lemma {:induction false} StaleIsBelow(loader: Loader, m: Moment, k: nat, n: nat)
    requires k < n
    ensures Stale(loader, m, k) <= StaleBelow(loader, m, n)
  {
    hide Stale;
    if k < n - 1 {
      StaleIsBelow(loader, m, k, n - 1);
    }
  }

  /** Forgetting the stale breakpoints goes unseen exactly if all of them hid an INT3. */
  lemma StaleUnseenIff(loader: Loader, m: Moment, n: nat)
    requires Consistent(m.view) && IsStopped(m)
    ensures m.view.active.process.pid !in m.view.retained
    ensures forall a :: a in StaleBelow(loader, m, n) ==> a in m.view.active.table
    ensures var w := WorldOf(m.view, m.policy);
            PatchedWorld(w, StaleBelow(loader, m, n)) == w <==>
            forall a :: a in StaleBelow(loader, m, n) ==> m.view.active.table[a].original == INT3
  {
    StaleIsInstalled(loader, m, n);
    ActiveProgram(m.view, m.policy);
    PatchUnseenIff(WorldOf(m.view, m.policy), StaleBelow(loader, m, n));
    StoppedIsActive(m.view);
    hide Consistent, WorldOf, PatchedWorld, StaleBelow, Settled;
    SavedBytesAreLogical(m.view.active, ActiveTask(m.view));
  }

  ghost predicate IsConverged(loader: Loader, m0: Moment, m: Moment, k: nat) {
    && k in m0.desk.requests && k in m.desk.requests && loader.resolve(m.desk.requests[k].target, m.now).Ok?
    && Converged(m0.desk.requests[k], m0.view.active.ids, loader.resolve(m.desk.requests[k].target, m.now).value,
                 m.desk.requests[k], m.view.active.ids)
  }

  /** The reconciliation that began at `m0` has not come to request `k`. */
  predicate Untouched(m0: Moment, m: Moment, k: nat) {
    && k in m0.desk.requests && k in m.desk.requests && m.desk.requests[k] == m0.desk.requests[k]
    && (m0.desk.requests[k].breakpoint.Some? ==>
          SameEntry(m0.view.active, m.view.active, m0.desk.requests[k].breakpoint.value))
  }

  lemma StaleAsBefore(loader: Loader, m0: Moment, m: Moment, k: nat)
    requires Untouched(m0, m, k) && m.now == m0.now && EntriesAgree(m0.view.active)
    ensures Stale(loader, m, k) == Stale(loader, m0, k)
  {
    SameStale(loader, m0, m, k);
  }

  lemma NoRequestIsStale(loader: Loader, m: Moment, k: nat)
    requires k !in m.desk.requests
    ensures StaleBelow(loader, m, k + 1) == StaleBelow(loader, m, k)
  {
  }

  ghost predicate LedgerHolds(m: Moment) {
    Ledger(m.desk.requests, Internal(m.desk), m.view.nextId)
  }

  /** Request `id` was brought up to date between these moments, and no other. */
  ghost predicate OneReconciled(m: Moment, m': Moment, id: nat) {
    && id in m.desk.requests && id in m'.desk.requests && m'.now == m.now
    && m'.desk.requests == m.desk.requests[id := m'.desk.requests[id]]
    && EntriesKept(m.view.active, m'.view.active, m.desk.requests[id].breakpoint, m.view.nextId)
  }

  lemma OthersUntouched(m0: Moment, m: Moment, m': Moment, id: nat)
    requires LedgerHolds(m) && OneReconciled(m, m', id)
    ensures forall k :: k != id && Untouched(m0, m, k) ==> Untouched(m0, m', k)
  {
    forall k | k != id && Untouched(m0, m, k)
      ensures Untouched(m0, m', k)
    {
      OwnIds(m.desk.requests, Internal(m.desk), m.view.nextId, id);
    }
  }

  lemma OthersConverged(loader: Loader, m0: Moment, m: Moment, m': Moment, id: nat)
    requires LedgerHolds(m) && OneReconciled(m, m', id) && Untouched(m0, m, id) && IsConverged(loader, m, m', id)
    ensures IsConverged(loader, m0, m', id)
    ensures forall k :: k != id && IsConverged(loader, m0, m, k) ==> IsConverged(loader, m0, m', k)
  {
    ConvergedFrom(m0.desk.requests[id], m0.view.active.ids, m.view.active.ids,
                  loader.resolve(m'.desk.requests[id].target, m'.now).value, m'.desk.requests[id], m'.view.active.ids);
    forall k | k != id && IsConverged(loader, m0, m, k)
      ensures IsConverged(loader, m0, m', k)
    {
      OwnIds(m.desk.requests, Internal(m.desk), m.view.nextId, id);
      assert Held(m.desk.requests[k], m'.view.active.ids) == Held(m.desk.requests[k], m.view.active.ids);
    }
  }

  // ----- stops of the loader's -----

  predicate IsInternalStop(d: Desk, stop: StopInfo) {
    && stop.reason == BreakpointHit && stop.address.Some?
    && ((d.bootstrapAddress.Some? && stop.address.value == d.bootstrapAddress.value)
        || (d.loaderAddress.Some? && stop.address.value == d.loaderAddress.value))
  }

  /** A stop at a bootstrap address that is still remembered, while a loader breakpoint is
      set: that breakpoint will be forgotten if the loader can be watched a second time. */
  ghost predicate Orphans(loader: Loader, m: Moment, stop: StopInfo) {
    && m.desk.loaderId.Some? && m.desk.loaderId.value in m.view.active.ids
    && m.desk.bootstrapAddress.Some? && stop.address == Some(m.desk.bootstrapAddress.value)
    && LoaderReady(loader, m)
  }

  /** The breakpoint that is forgotten at such a stop. */
  ghost function Lost(loader: Loader, m: Moment, stop: StopInfo): set<nat> {
    if Orphans(loader, m, stop) then {m.desk.loaderId.value} else {}
  }

  lemma LostWasOwned(loader: Loader, m: Moment, stop: StopInfo)
    ensures Lost(loader, m, stop) !! Unowned(m)
  {
    hide LoaderReady;
  }

  /** What a caller can see before resuming: there is a breakpoint at a remembered
      bootstrap address, beside a loader breakpoint. */
  predicate AtRisk(m: Moment) {
    && m.desk.loaderId.Some? && m.desk.loaderId.value in m.view.active.ids
    && m.desk.bootstrapAddress.Some? && m.desk.bootstrapAddress.value in m.view.active.table
  }

  /** How the stop was handled. A stop at a left-over bootstrap address sets a loader
      breakpoint where the loader reports changes now. */
  ghost predicate Handled(loader: Loader, m: Moment, stop: StopInfo, m': Moment, r: Result<()>) {
    && SameProcess(m, m') && m'.desk.requests.Keys == m.desk.requests.Keys
    && Unowned(m') == Unowned(m) + Lost(loader, m, stop)
    && (Tidy(m.desk) ==> Tidy(m'.desk)) && (Unconfused(m.desk) ==> Unconfused(m'.desk))
    && (m.desk.bootstrapAddress.Some? && m.desk.bootstrapId.None? && stop.address == Some(m.desk.bootstrapAddress.value)
        && LoaderReady(loader, m) && NeverSettled(loader) ==>
          r.Ok? && Watches(loader, m.(desk := m.desk.(bootstrapAddress := None)), m'))
  }

  // ----- one turn of continuing -----

  /** From a resumption to the next, or to the end of the call: the moment of the stop, and
      what it led to. `None` is a stop of the loader's that was handled. */
  datatype Turn = Turn(before: Moment, at: Moment, stop: Result<StopInfo>, after: Moment, result: Result<Option<StopInfo>>)

  /** What the debugger's `continue` leaves of the table. */
  ghost predicate RanOn(m: Moment, stop: Result<StopInfo>, m': Moment) {
    && m'.desk == m.desk && m'.policy == m.policy
    && (!IsStopped(m) ==> m' == m && stop.Err?)
    && OthersIds(m'.view) <= OthersIds(m.view)
    && Unowned(m') <= Unowned(m) + OthersIds(m.view)
    && (stop.Err? || !Replaced(stop.value) ==> m'.view.active.ids == m.view.active.ids)
    && (stop.Ok? && stop.value.reason == BreakpointHit ==>
          IsStopped(m') && stop.value.address.Some? && stop.value.address.value in m.view.active.table)
  }

  ghost predicate TurnMeans(loader: Loader, t: Turn) {
    && RanOn(t.before, t.stop, t.at)
    && if t.stop.Err? then t.after == t.at && t.result == Err(t.stop.error)
       else if IsInternalStop(t.at.desk, t.stop.value) then
         exists r :: Handled(loader, t.at, t.stop.value, t.after, r) && t.result == if r.Ok? then Ok(None) else Err(r.error)
       else t.after == Suspended(t.at) && t.result == Ok(Some(t.stop.value))
             && (IsStopped(t.at) ==> Unowned(t.after) == Unowned(t.at))
  }

  ghost function LostAt(loader: Loader, t: Turn): set<nat> {
    if t.stop.Ok? && IsInternalStop(t.at.desk, t.stop.value) then Lost(loader, t.at, t.stop.value) else {}
  }

  /** The exact condition for a loader breakpoint to be left to nobody by a turn: it was at
      risk, the process stopped at the remembered address, and by then the loader could be
      watched somewhere else. */
  lemma LostIff(loader: Loader, t: Turn)
    requires TurnMeans(loader, t)
    ensures LostAt(loader, t) != {} <==>
      && AtRisk(t.before) && t.stop.Ok? && t.stop.value.reason == BreakpointHit
      && t.stop.value.address == Some(t.before.desk.bootstrapAddress.value) && LoaderReady(loader, t.at)
    ensures LostAt(loader, t) != {} ==>
      t.before.desk.loaderId.value in Unowned(t.after) && t.before.desk.loaderId.value !in Unowned(t.before)
  {
    LostWasOwned(loader, t.at, if t.stop.Ok? then t.stop.value else t.at.view.active.stop);
    assert t.at.view.active.ids == t.before.view.active.ids ==> Unowned(t.at) == Unowned(t.before);
    hide LoaderReady, Unclaimed, Watches, OthersIds;
  }

  ghost function LostIn(loader: Loader, turns: seq<Turn>): set<nat> {
    if turns == [] then {}
    else
      LostIn(loader, turns[..|turns| - 1]) + LostAt(loader, turns[|turns| - 1])
  }

  function StartOf(m: Moment, turns: seq<Turn>, k: nat): Moment
    requires k <= |turns|
  {
    if k == 0 then m else turns[k - 1].after
  }

  /** One turn after the other. */
  ghost predicate IsSeries(loader: Loader, m: Moment, turns: seq<Turn>, m': Moment) {
    && (forall k :: 0 <= k < |turns| ==> TurnMeans(loader, turns[k]) && turns[k].before == StartOf(m, turns, k))
    && m' == StartOf(m, turns, |turns|)
  }

  lemma SeriesGrows(loader: Loader, m: Moment, turns: seq<Turn>, m': Moment, t: Turn)
    requires IsSeries(loader, m, turns, m') && TurnMeans(loader, t) && t.before == m'
    ensures IsSeries(loader, m, turns + [t], t.after)
  {
    hide TurnMeans;
    var longer := turns + [t];
    assert longer[..|turns|] == turns;
    forall k | 0 <= k < |longer|
      ensures TurnMeans(loader, longer[k]) && longer[k].before == StartOf(m, longer, k)
    {
      if k > 0 {
        assert longer[k - 1] == turns[k - 1];
      }
      if k < |turns| {
        assert TurnMeans(loader, turns[k]) && longer[k] == turns[k];
      }
    }
  }

  predicate NoneReplaced(turns: seq<Turn>) {
    forall k :: 0 <= k < |turns| && turns[k].stop.Ok? ==> !Replaced(turns[k].stop.value)
  }

  predicate NeverAtRisk(turns: seq<Turn>) {
    forall k :: 0 <= k < |turns| ==> !AtRisk(turns[k].before)
  }

  /** Over one turn, the table gains exactly the breakpoint that is forgotten in it. */
  lemma TurnAccounts(loader: Loader, t: Turn)
    requires TurnMeans(loader, t)
    ensures var lost := LostAt(loader, t);
            && (IsStopped(t.after) ==> IsStopped(t.before))
            && OthersIds(t.after.view) <= OthersIds(t.before.view)
            && (IsStopped(t.after) ==>
                  && Unowned(t.after) <= Unowned(t.before) + OthersIds(t.before.view) + lost
                  && (t.stop.Err? || !Replaced(t.stop.value) ==> Unowned(t.after) == Unowned(t.before) + lost))
            && (Unconfused(t.before.desk) ==> Unconfused(t.after.desk) && lost == {})
            && (lost != {} ==> AtRisk(t.before))
  {
    assert Unclaimed(t.at.view.active.ids, t.at.desk.requests, Internal(t.at.desk)) == Unowned(t.at);
    hide Unclaimed, LoaderReady, Watches;
    OthersWithout(t.at.view, t.at.desk.loaderId, t.at.desk.bootstrapId);
  }

  lemma OthersWithout(s: State, a: Option<nat>, b: Option<nat>)
    ensures var s' := WithoutInternal(WithoutInternal(s, a), b);
            s'.retained == s.retained && s'.active.process == s.active.process
  {
  }

  lemma EndsAfterPrefix(loader: Loader, m: Moment, turns: seq<Turn>, m': Moment)
    requires IsSeries(loader, m, turns, m') && turns != []
    ensures var n := |turns| - 1;
            && IsSeries(loader, m, turns[..n], turns[n].before) && TurnMeans(loader, turns[n]) && m' == turns[n].after
  {
    hide TurnMeans;
    var n := |turns| - 1;
    forall k | 0 <= k < n
      ensures TurnMeans(loader, turns[..n][k]) && turns[..n][k].before == StartOf(m, turns[..n], k)
    {
      assert turns[k].before == StartOf(m, turns, k);
    }
    assert turns[n].before == StartOf(m, turns, n) == StartOf(m, turns[..n], n);
  }

  /** Whatever the processes do, over any series of turns the table gains only what is
      forgotten in it, or what other processes had. */
  lemma {:induction false} SeriesAccounts(loader: Loader, m: Moment, turns: seq<Turn>, m': Moment)
    requires IsSeries(loader, m, turns, m')
    ensures OthersIds(m'.view) <= OthersIds(m.view) && (IsStopped(m') ==> IsStopped(m))
    ensures IsStopped(m') ==> Unowned(m') <= Unowned(m) + OthersIds(m.view) + LostIn(loader, turns)
    decreases |turns|
  {
    hide IsSeries, TurnMeans, Unowned, OthersIds, LostAt, IsStopped;
    if turns == [] {
      NoTurns(loader, m, m');
    } else {
      var n := |turns| - 1;
      EndsAfterPrefix(loader, m, turns, m');
      SeriesAccounts(loader, m, turns[..n], turns[n].before);
      TurnAccounts(loader, turns[n]);
    }
  }

  lemma NoTurns(loader: Loader, m: Moment, m': Moment)
    requires IsSeries(loader, m, [], m')
    ensures m' == m
  {
  }

  /** Unless the image or the process was exchanged, it gains all of that. */
  lemma {:induction false} SeriesKeepsLost(loader: Loader, m: Moment, turns: seq<Turn>, m': Moment)
    requires IsSeries(loader, m, turns, m') && NoneReplaced(turns)
    ensures IsStopped(m') ==> Unowned(m') == Unowned(m) + LostIn(loader, turns)
    decreases |turns|
  {
    hide IsSeries, TurnMeans, Unowned, OthersIds, LostAt, IsStopped, Replaced;
    if turns == [] {
      NoTurns(loader, m, m');
    } else {
      var n := |turns| - 1;
      EndsAfterPrefix(loader, m, turns, m');
      SeriesKeepsLost(loader, m, turns[..n], turns[n].before);
      TurnAccounts(loader, turns[n]);
    }
  }

  /** Nothing is forgotten if no bootstrap address is remembered beside a loader
      breakpoint when the series begins, nor if no resumption in it is at risk. */
  lemma {:induction false} NothingIsLost(loader: Loader, m: Moment, turns: seq<Turn>, m': Moment)
    requires IsSeries(loader, m, turns, m')
    ensures Unconfused(m.desk) ==> Unconfused(m'.desk) && LostIn(loader, turns) == {}
    ensures NeverAtRisk(turns) ==> LostIn(loader, turns) == {}
    decreases |turns|
  {
    hide IsSeries, TurnMeans, Unowned, OthersIds, LostAt, IsStopped, AtRisk, Unconfused;
    if turns == [] {
      NoTurns(loader, m, m');
    } else {
      var n := |turns| - 1;
      EndsAfterPrefix(loader, m, turns, m');
      NothingIsLost(loader, m, turns[..n], turns[n].before);
      TurnAccounts(loader, turns[n]);
    }
  }

  // ----- a whole call -----

  /** The loader is monitored before the first resumption, if there are requests. */
  ghost predicate Begins(loader: Loader, m: Moment, begun: Moment) {
    && SameProcess(m, begun) && begun.desk.requests == m.desk.requests && Unowned(begun) == Unowned(m)
    && (m.desk.requests == map[] ==> begun == m)
    && (m.desk.requests != map[] ==> Monitors(loader, m, begun, Monitorable(loader, m)))
  }

  /** A `continue` that began so and went on in these turns: exactly the breakpoints
      forgotten in it are left to nobody. A caller can tell beforehand that there will be
      none, and can be certain of it at every resumption that is not at risk. */
  lemma CallAccounts(loader: Loader, m: Moment, begun: Moment, turns: seq<Turn>, m': Moment)
    requires Begins(loader, m, begun) && IsSeries(loader, begun, turns, m')
    ensures OthersIds(m'.view) <= OthersIds(m.view) && (IsStopped(m') ==> IsStopped(m))
    ensures IsStopped(m') ==> Unowned(m') <= Unowned(m) + OthersIds(m.view) + LostIn(loader, turns)
    ensures IsStopped(m') && NoneReplaced(turns) ==> Unowned(m') == Unowned(m) + LostIn(loader, turns)
    ensures Unconfused(m.desk) && !(m.desk.requests != map[] && Confuses(loader, m)) ==>
      Unconfused(m'.desk) && LostIn(loader, turns) == {}
    ensures NeverAtRisk(turns) ==> LostIn(loader, turns) == {}
  {
    SeriesAccounts(loader, begun, turns, m');
    if NoneReplaced(turns) {
      SeriesKeepsLost(loader, begun, turns, m');
    }
    NothingIsLost(loader, begun, turns, m');
    assert OthersIds(begun.view) == OthersIds(m.view);
    hide IsSeries, Unowned, OthersIds, LostIn, NeverAtRisk, NoneReplaced, Confuses, Monitorable, Blocked, Watches;
  }

  lemma {:induction false} LostInBoth(loader: Loader, turns: seq<Turn>, more: seq<Turn>)
    ensures LostIn(loader, turns + more) == LostIn(loader, turns) + LostIn(loader, more)
    decreases |more|
  {
    hide LostAt;
    if more == [] {
      assert turns + more == turns;
    } else {
      var n, all := |more| - 1, turns + more;
      assert all[|all| - 1] == more[n] && all[..|all| - 1] == turns + more[..n];
      LostInBoth(loader, turns, more[..n]);
      assert LostIn(loader, all) == LostIn(loader, turns + more[..n]) + LostAt(loader, more[n]);
    }
  }
}

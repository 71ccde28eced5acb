/** Breakpoints on code that may not be loaded yet: requests are kept by name and are
    reconciled with what is loaded whenever the dynamic loader reports a change. */
module Deferred {
  import opened Base
  import opened Tracee
  import opened Overlay
  import opened Kernel
  import opened Session
  import opened Outcomes
  import opened Resuming
  import opened Worlds
  import opened Debugging
  import opened Driver
  import opened SourceMotion
  import opened Requests

  /** The debugger is consistent, and its breakpoints are on code. */
  ghost predicate Sane(debugger: Debugger, code: set<int>)
    reads debugger, debugger.kernel
  {
    debugger.Valid() && Within(debugger.View(), code) && Discreet(debugger.kernel.moves, code)
  }

  class DeferredBreakpoints {
    const debugger: Debugger
    const loader: Loader
    var requests: map<nat, Request>
    var nextRequestId: nat
    var rendezvous: Option<nat>
    var loaderId: Option<nat>
    var loaderAddress: Option<nat>
    var bootstrapId: Option<nat>
    var bootstrapAddress: Option<nat>

    function Memory(): Desk
      reads this
    {
      Desk(requests, rendezvous, loaderId, loaderAddress, bootstrapId, bootstrapAddress)
    }

    ghost function Now(): Moment
      reads this, debugger, debugger.kernel
    {
      Moment(Memory(), debugger.View(), debugger.policy, debugger.kernel.clock)
    }

    ghost predicate Valid(code: set<int>)
      reads this, debugger, debugger.kernel
    {
      && Sane(debugger, code)
      && LeadsInto(loader, code)
      && (forall i :: i in requests ==> i < nextRequestId)
      && Ledger(requests, (loaderId, bootstrapId), debugger.nextBreakpointId)
      && (loaderId.Some? ==> bootstrapId.None?)
    }

    constructor (debugger: Debugger, loader: Loader, ghost code: set<int>)
      requires Sane(debugger, code)
      requires LeadsInto(loader, code)
      ensures Valid(code) && this.debugger == debugger && this.loader == loader
      ensures Memory() == Desk(map[], None, None, None, None, None)
    {
      this.debugger, this.loader := debugger, loader;
      requests, nextRequestId := map[], 1;
      rendezvous, loaderId, loaderAddress, bootstrapId, bootstrapAddress := None, None, None, None, None;
    }

    // ----- what the stopped program says -----

    function Resolve(target: Target): Result<Option<nat>>
      reads debugger, debugger.kernel
    {
      loader.resolve(target, debugger.kernel.clock)
    }

    function Here(): Result<Cpu>
      reads debugger, debugger.kernel
    {
      if debugger.IsStopped() && debugger.Pid() in debugger.kernel.tasks
      then Ok(debugger.kernel.tasks[debugger.Pid()].cpu) else Err(LogicError)
    }

    function IsSettled(): Result<bool>
      reads this, debugger, debugger.kernel
    {
      if rendezvous.None? then Ok(false)
      else if Here().Err? then Err(Here().error)
      else loader.settled(Here().value, rendezvous.value)
    }

    // ----- one breakpoint -----

    /** A breakpoint at this address, which no program notices. */
    method Arm(address: nat, ghost code: set<int>) returns (r: Result<nat>)
      requires Sane(debugger, code) && address in code
      modifies debugger, debugger.kernel
      ensures Sane(debugger, code) && SameProcess(old(Now()), Now()) && Unseen(old(Now()), Now())
      ensures r.Ok? <==> old(CanArm(debugger.View(), debugger.policy, address))
      ensures r.Ok? ==>
        && r.value == old(debugger.nextBreakpointId) && r.value !in old(debugger.active.ids)
        && debugger.nextBreakpointId == r.value + 1
        && debugger.active.ids == old(debugger.active.ids)[r.value := address]
        && IsArmed(old(debugger.View()), address, debugger.View())
      ensures r.Err? ==> unchanged(debugger, debugger.kernel)
    {
      hide Consistent, Logical, Mapped, WorldOf;
      NextIdIsNew(debugger.View());
      ConsistentHasRegistry(debugger.View());
      ghost var s := debugger.View();
      if debugger.IsStopped() {
        StoppedIsActive(s);
      }
      r := debugger.AddBreakpoint(address);
      if r.Ok? {
        KeptOthers(s.tasks, s.active.process.pid, debugger.kernel.tasks[debugger.Pid()]);
        UnseenChange(s, debugger.policy, debugger.View());
      }
    }

    method Disarm(id: nat, ghost code: set<int>) returns (found: bool)
      requires Sane(debugger, code)
      modifies debugger, debugger.kernel
      ensures Sane(debugger, code) && SameProcess(old(Now()), Now()) && Unseen(old(Now()), Now())
      ensures debugger.nextBreakpointId == old(debugger.nextBreakpointId)
      ensures found <==> id in old(debugger.active.ids)
      ensures debugger.active.ids == old(debugger.active.ids) - {id}
      ensures debugger.View() == Without(old(debugger.View()), id)
      ensures !found ==> unchanged(debugger, debugger.kernel)
    {
      hide Consistent, Logical, Removed, WorldOf;
      ghost var before := debugger.View();
      ConsistentHasRegistry(before);
      if debugger.IsStopped() {
        StoppedIsActive(before);
      }
      found := debugger.RemoveBreakpoint(id);
      if found {
        RemovedStaysWithin(before, id, code);
        RemovalUnseen(before, debugger.policy, id);
      }
    }

    // ----- monitoring the loader -----

    method TryInstallLoaderBreakpoint(ghost code: set<int>) returns (r: Result<bool>)
      requires Valid(code) && bootstrapId.None?
      modifies this, debugger, debugger.kernel
      ensures Valid(code) && SameProcess(old(Now()), Now()) && Unseen(old(Now()), Now())
      ensures unchanged(this`requests, this`nextRequestId, this`bootstrapId, this`bootstrapAddress)
      ensures r == Ok(true) <==> old(LoaderReady(loader, Now()))
      ensures r == Ok(false) <==> old(Dormant(loader, Now()))
      ensures r == Ok(true) ==> Watches(loader, old(Now()), Now()) && old(debugger.nextBreakpointId !in debugger.active.ids)
      ensures r != Ok(true) ==> loaderId == old(loaderId) && unchanged(debugger, debugger.kernel)
    {
      hide IsArmed, Sane, CanArm, WorldOf;
      var here := Here();
      assert here == HereAt(debugger.View());
      NothingSeen(code);
      if here.Err? {
        return Err(here.error);
      }
      var slot := loader.rendezvous(here.value, debugger.kernel.clock);
      if slot.Err? {
        return Err(slot.error);
      }
      if slot.value.None? {
        return Ok(false);
      }
      rendezvous := slot.value;
      var stopsAt := loader.loaderBreak(here.value, slot.value.value);
      if stopsAt.Err? {
        return Err(stopsAt.error);
      }
      loaderAddress := Some(stopsAt.value);
      var added := Arm(stopsAt.value, code);
      if added.Err? {
        return Err(added.error);
      }
      loaderId := Some(added.value);
      return Ok(true);
    }

    lemma ConsistentNow(code: set<int>)
      requires Sane(debugger, code)
      ensures Consistent(debugger.View())
    {
    }

    lemma EntriesAgreeNow(code: set<int>)
      requires Sane(debugger, code) && debugger.IsStopped()
      ensures EntriesAgree(debugger.active)
    {
      hide Consistent;
      StoppedEntriesAgree(debugger.View());
    }

    lemma NothingSeen(code: set<int>)
      requires Sane(debugger, code)
      ensures Unseen(Now(), Now())
    {
      hide Consistent, WorldOf;
      ConsistentHasRegistry(debugger.View());
    }

    /** With requests, there is a breakpoint where the loader reports changes or, before it
        has come up, at the entry point. */
    method EnsureMonitoring(ghost code: set<int>) returns (r: Result<()>)
      requires Valid(code)
      modifies this, debugger, debugger.kernel
      ensures Valid(code) && SameProcess(old(Now()), Now()) && Unseen(old(Now()), Now())
      ensures unchanged(this`requests, this`nextRequestId) && Unowned(Now()) == old(Unowned(Now()))
      ensures requests == map[] ==> r.Ok? && Now() == old(Now())
      ensures requests != map[] ==> Monitors(loader, old(Now()), Now(), r.Ok?)
      ensures r.Err? ==> unchanged(debugger, debugger.kernel)
      ensures forall i :: i in old(debugger.active.ids) ==>
        i in debugger.active.ids && debugger.active.ids[i] == old(debugger.active.ids)[i]
    {
      hide CanArm, Sane, Ledger, WorldOf, Unclaimed, LeadsInto;
      NothingSeen(code);
      if requests == map[] || loaderId.Some? || bootstrapId.Some? {
        return Ok(());
      }
      var installed := TryInstallLoaderBreakpoint(code);
      if installed.Err? {
        return Err(installed.error);
      }
      if !installed.value {
        var entry := loader.entry(debugger.kernel.clock);
        if entry.Err? {
          return Err(entry.error);
        }
        EntryIsCode(loader, code, debugger.kernel.clock);
        r := Bootstrap(entry.value, code);
        return r;
      }
      LoaderClaims(old(debugger.active.ids), requests, (None, None), old(debugger.nextBreakpointId), loaderAddress.value);
      return Ok(());
    }

    /** A breakpoint at the entry point, until the loader has come up. The address is noted
        even if the breakpoint is refused. */
    method Bootstrap(entry: nat, ghost code: set<int>) returns (r: Result<()>)
      requires Valid(code) && loaderId.None? && bootstrapId.None? && entry in code
      modifies this`bootstrapId, this`bootstrapAddress, debugger, debugger.kernel
      ensures Valid(code) && SameProcess(old(Now()), Now()) && Unseen(old(Now()), Now())
      ensures bootstrapAddress == Some(entry) && Unowned(Now()) == old(Unowned(Now()))
      ensures r.Ok? <==> old(CanArm(debugger.View(), debugger.policy, entry))
      ensures r.Err? ==> bootstrapId.None? && unchanged(debugger, debugger.kernel)
      ensures r.Ok? ==>
        && bootstrapId == Some(old(debugger.nextBreakpointId)) && old(debugger.nextBreakpointId) !in old(debugger.active.ids)
        && debugger.active.ids == old(debugger.active.ids)[bootstrapId.value := entry]
    {
      hide CanArm, IsArmed, Sane, WorldOf, Unclaimed;
      bootstrapAddress := Some(entry);
      var added := Arm(entry, code);
      if added.Err? {
        return Err(added.error);
      }
      BootstrapClaims(old(debugger.active.ids), requests, (None, None), added.value, entry);
      bootstrapId := Some(added.value);
      return Ok(());
    }

    method RemoveLoaderBreakpoint(ghost code: set<int>)
      requires Valid(code)
      modifies this, debugger, debugger.kernel
      ensures Valid(code) && SameProcess(old(Now()), Now()) && Unseen(old(Now()), Now())
      ensures unchanged(this`nextRequestId)
      ensures Now() == old(Now()).(desk := old(Memory()).(loaderId := None, loaderAddress := None),
                                   view := WithoutInternal(old(debugger.View()), old(loaderId)))
      ensures debugger.IsStopped() ==> Unowned(Now()) == old(Unowned(Now()))
    {
      hide Sane, WorldOf, Unclaimed, Removed;
      NothingSeen(code);
      if loaderId.Some? && debugger.active.process.state == Stopped {
        var _ := Disarm(loaderId.value, code);
        ForgottenClaims(old(debugger.active.ids), requests, loaderId.value, bootstrapId);
      }
      loaderId, loaderAddress := None, None;
    }

    method RemoveBootstrapBreakpoint(ghost code: set<int>)
      requires Valid(code)
      modifies this, debugger, debugger.kernel
      ensures Valid(code) && SameProcess(old(Now()), Now()) && Unseen(old(Now()), Now())
      ensures unchanged(this`nextRequestId)
      ensures Now() == old(Now()).(desk := old(Memory()).(bootstrapId := None, bootstrapAddress := None),
                                   view := WithoutInternal(old(debugger.View()), old(bootstrapId)))
      ensures debugger.IsStopped() ==> Unowned(Now()) == old(Unowned(Now()))
    {
      hide Sane, WorldOf, Unclaimed, Removed;
      NothingSeen(code);
      if bootstrapId.Some? && debugger.active.process.state == Stopped {
        var _ := Disarm(bootstrapId.value, code);
        ForgottenClaims(old(debugger.active.ids), requests, bootstrapId.value, loaderId);
      }
      bootstrapId, bootstrapAddress := None, None;
    }

    /** In a stopped process no internal breakpoint is left, and no program has noticed. */
    method SuspendMonitoring(ghost code: set<int>)
      requires Valid(code)
      modifies this, debugger, debugger.kernel
      ensures Valid(code) && SameProcess(old(Now()), Now()) && Unseen(old(Now()), Now())
      ensures unchanged(this`nextRequestId)
      ensures Now() == Suspended(old(Now()))
      ensures debugger.IsStopped() ==> Unowned(Now()) == old(Unowned(Now()))
    {
      hide Sane, Ledger, LeadsInto, WorldOf, Unclaimed, WithoutInternal;
      RemoveLoaderBreakpoint(code);
      RemoveBootstrapBreakpoint(code);
    }

    // ----- requests -----

    /** A request for `target`, to be entered as number `at`. */
    method Answer(target: Target, at: nat, ghost code: set<int>) returns (r: Result<Request>)
      requires Valid(code) && at !in requests
      modifies debugger, debugger.kernel
      ensures Valid(code) && SameProcess(old(Now()), Now()) && Unseen(old(Now()), Now())
      ensures r.Ok? <==>
        && Resolve(target).Ok?
        && (Resolve(target).value.Some? ==> old(CanArm(debugger.View(), debugger.policy, Resolve(target).value.value)))
      ensures r.Err? ==> unchanged(debugger, debugger.kernel)
      ensures r.Ok? ==>
        && r.value.target == target && Resolve(target).Ok? && r.value.address == Resolve(target).value
        && (r.value.breakpoint.Some? <==> Resolve(target).value.Some?)
        && Ledger(requests[at := r.value], (loaderId, bootstrapId), debugger.nextBreakpointId)
        && Entered(Now(), at, r.value) == With(loader, old(Now()), target, at)
        && Rebound(None, old(debugger.active.ids), old(debugger.nextBreakpointId), r.value, debugger.active.ids)
        && (Resolve(target).value.None? ==> unchanged(debugger, debugger.kernel))
    {
      hide Sane, Ledger, LeadsInto, CanArm, WorldOf;
      NothingSeen(code);
      var resolved := Resolve(target);
      ResolvesInto(loader, code, target, debugger.kernel.clock);
      if resolved.Err? {
        return Err(resolved.error);
      }
      var request := Request(target, None, None);
      if resolved.value.Some? {
        request := request.(address := resolved.value);
        var added := Arm(resolved.value.value, code);
        if added.Err? {
          return Err(added.error);
        }
        request := request.(breakpoint := Some(added.value));
        AnswersRequest(requests, (loaderId, bootstrapId), added.value, at, request);
      } else {
        Unanswers(requests, (loaderId, bootstrapId), debugger.nextBreakpointId, at, request);
      }
      return Ok(request);
    }

    /** A new request, with a breakpoint exactly when its target resolves now. It is
        accepted exactly when that breakpoint can be set and the loader monitored. No
        program notices anything; and a request that is refused, even after its breakpoint
        was set, leaves nothing behind but what `Monitors` says. */
    method AddTarget(target: Target, ghost code: set<int>) returns (r: Result<nat>)
      requires Valid(code)
      modifies this, debugger, debugger.kernel
      ensures Valid(code) && Adds(loader, old(Now()), target, old(nextRequestId), Now(), r)
    {
      hide Sane, Ledger, LeadsInto, CanArm, Requested, WorldOf, Unclaimed, Monitors, With, Answered;
      NothingSeen(code);
      if debugger.active.process.state != Stopped {
        return Err(LogicError);
      }
      if exists i :: i in requests && requests[i].target == target {
        return Err(InvalidArgument);
      }
      r := Admit(target, code);
    }

    /** A request whose target is new. */
    method Admit(target: Target, ghost code: set<int>) returns (r: Result<nat>)
      requires Valid(code) && debugger.IsStopped() && forall i :: i in requests ==> requests[i].target != target
      modifies this, debugger, debugger.kernel
      ensures Valid(code) && Adds(loader, old(Now()), target, old(nextRequestId), Now(), r)
    {
      hide Sane, Ledger, LeadsInto, CanArm, Requested, WorldOf, Unclaimed, Monitors, With;
      var id := nextRequestId;
      nextRequestId := nextRequestId + 1;
      ghost var m := Now();
      NothingSeen(code);
      var answer := Answer(target, id, code);
      if answer.Err? {
        return Err(answer.error);
      }
      var request := answer.value;
      ReboundClaims(m.view.active.ids, requests, Internal(m.desk), m.view.nextId, id, request, debugger.active.ids);
      var entered := Enter(id, request, code);
      if entered.Err? {
        return Err(entered.error);
      }
      return Ok(id);
    }

    /** The request is entered and the loader monitored, or it is taken back. */
    method Enter(id: nat, request: Request, ghost code: set<int>) returns (r: Result<()>)
      requires Valid(code) && id !in requests && id < nextRequestId
      requires Ledger(requests[id := request], (loaderId, bootstrapId), debugger.nextBreakpointId)
      modifies this, debugger, debugger.kernel
      ensures Valid(code) && SameProcess(old(Now()), Now()) && Unseen(old(Now()), Now())
      ensures unchanged(this`nextRequestId) && Monitors(loader, old(Entered(Now(), id, request)), Now(), r.Ok?)
      ensures Unowned(Now()) == old(Unowned(Entered(Now(), id, request)))
      ensures r.Err? ==>
        && requests == old(requests)
        && debugger.active.ids == (if request.breakpoint.Some? then old(debugger.active.ids) - {request.breakpoint.value}
                                   else old(debugger.active.ids))
        && (request.breakpoint.None? ==> unchanged(debugger, debugger.kernel))
      ensures r.Ok? ==>
        && requests == old(requests)[id := request]
        && forall i :: i in old(debugger.active.ids) ==>
             i in debugger.active.ids && debugger.active.ids[i] == old(debugger.active.ids)[i]
    {
      hide Sane, Ledger, LeadsInto, CanArm, Requested, LoaderReady, WorldOf, Unclaimed, Watches;
      requests := requests[id := request];
      assert requests != map[] by { assert id in requests; }
      ghost var m := Now();
      var monitored := EnsureMonitoring(code);
      if monitored.Err? {
        ghost var ids := debugger.active.ids;
        if request.breakpoint.Some? {
          var _ := Disarm(request.breakpoint.value, code);
        }
        WithdrawnClaims(ids, requests, (loaderId, bootstrapId), debugger.nextBreakpointId, id, debugger.active.ids);
        Withdraws(requests, (loaderId, bootstrapId), debugger.nextBreakpointId, id);
        requests := requests - {id};
        assert requests == old(requests);
        return Err(monitored.error);
      }
      return Ok(());
    }

    /** Forgetting a request takes its breakpoint out of the table; with the last request
        go the internal breakpoints. No program notices. */
    method Remove(id: nat, ghost code: set<int>) returns (r: Result<bool>)
      requires Valid(code)
      modifies this, debugger, debugger.kernel
      ensures Valid(code) && SameProcess(old(Now()), Now()) && Unseen(old(Now()), Now())
      ensures old(Tidy(Memory())) ==> Tidy(Memory())
      ensures old(Unconfused(Memory())) ==> Unconfused(Memory())
      ensures r == Ok(false) <==> id !in old(requests)
      ensures r.Err? <==> id in old(requests) && old(requests)[id].breakpoint.Some?
                          && old(requests)[id].breakpoint.value !in old(debugger.active.ids)
      ensures r != Ok(true) ==> Now() == old(Now())
      ensures r == Ok(true) ==>
        && requests == old(requests) - {id}
        && (old(requests)[id].breakpoint.Some? ==> old(requests)[id].breakpoint.value !in debugger.active.ids)
        && (requests == map[] ==> loaderId.None? && bootstrapId.None?)
      ensures debugger.IsStopped() ==> Unowned(Now()) == old(Unowned(Now()))
    {
      hide Sane, Ledger, LeadsInto, WorldOf, Unclaimed, Without, WithoutInternal;
      NothingSeen(code);
      if id !in requests {
        return Ok(false);
      }
      if requests[id].breakpoint.Some? {
        var found := Disarm(requests[id].breakpoint.value, code);
        if !found {
          return Err(LogicError);
        }
      }
      WithdrawnClaims(old(debugger.active.ids), old(requests), (loaderId, bootstrapId), debugger.nextBreakpointId, id,
                      debugger.active.ids);
      Withdraws(requests, (loaderId, bootstrapId), debugger.nextBreakpointId, id);
      requests := requests - {id};
      if requests == map[] {
        StopMonitoring(code);
      }
      return Ok(true);
    }

    method StopMonitoring(ghost code: set<int>)
      requires Valid(code)
      modifies this, debugger, debugger.kernel
      ensures Valid(code) && SameProcess(old(Now()), Now()) && Unseen(old(Now()), Now())
      ensures unchanged(this`nextRequestId, this`requests)
      ensures loaderId.None? && loaderAddress.None? && bootstrapId.None? && bootstrapAddress.None?
      ensures forall i :: i in debugger.active.ids ==> i in old(debugger.active.ids)
      ensures debugger.IsStopped() ==> Unowned(Now()) == old(Unowned(Now()))
    {
      hide Sane, Ledger, LeadsInto, WorldOf, Unclaimed;
      SuspendMonitoring(code);
      rendezvous := None;
    }

    // ----- bringing requests up to date -----

    /** One request brought up to date; the others keep theirs. */
    method ReconcileOne(id: nat, ghost code: set<int>) returns (r: Result<()>)
      requires Valid(code) && id in requests && debugger.IsStopped()
      modifies this`requests, debugger, debugger.kernel
      ensures Valid(code) && SameProcess(old(Now()), Now())
      ensures id in requests && requests == old(requests)[id := requests[id]]
      ensures r.Ok? ==>
        && Resolve(requests[id].target).Ok?
        && Converged(old(requests)[id], old(debugger.active.ids), Resolve(requests[id].target).value,
                     requests[id], debugger.active.ids)
      ensures Rebound(old(requests)[id].breakpoint, old(debugger.active.ids), old(debugger.nextBreakpointId), requests[id],
                      debugger.active.ids)
      ensures EntriesKept(old(debugger.active), debugger.active, old(requests)[id].breakpoint, old(debugger.nextBreakpointId))
      ensures debugger.Pid() !in debugger.retained
      ensures WorldOf(debugger.View(), debugger.policy) ==
              PatchedWorld(old(WorldOf(debugger.View(), debugger.policy)), old(Stale(loader, Now(), id)))
    {
      hide Sane, Ledger, LeadsInto, WorldOf, PatchedWorld, Consistent, IsArmed, ErasedDomain, EntriesKept;
      NothingSeen(code);
      OwnIds(requests, (loaderId, bootstrapId), debugger.nextBreakpointId, id);
      OwnEntriesKept(debugger.active, requests[id].breakpoint, debugger.nextBreakpointId);
      var request := requests[id];
      var resolved := Resolve(request.target);
      ResolvesInto(loader, code, request.target, debugger.kernel.clock);
      PatchedTwice(WorldOf(debugger.View(), debugger.policy), {}, {});
      if resolved.Err? {
        return Err(resolved.error);
      }
      if request.breakpoint.Some? {
        if resolved.value == request.address {
          return Ok(());
        }
        var found := Forget(request.breakpoint.value, code);
        if !found {
          return Err(LogicError);
        }
        request := request.(breakpoint := None, address := None);
        Unanswers(requests, (loaderId, bootstrapId), debugger.nextBreakpointId, id, request);
        requests := requests[id := request];
      }
      if resolved.value.None? {
        return Ok(());
      }
      ghost var d := debugger.active;
      r := AnswerAgain(id, resolved.value.value, code);
      EntriesStillKept(old(debugger.active), d, debugger.active, old(requests)[id].breakpoint, old(debugger.nextBreakpointId));
    }

    /** A breakpoint for a request that has none. */
    method AnswerAgain(id: nat, address: nat, ghost code: set<int>) returns (r: Result<()>)
      requires Valid(code) && id in requests && requests[id].breakpoint.None? && address in code
      modifies this`requests, debugger, debugger.kernel
      ensures Valid(code) && SameProcess(old(Now()), Now()) && Unseen(old(Now()), Now())
      ensures id in requests && requests == old(requests)[id := requests[id]]
      ensures requests[id].target == old(requests)[id].target && requests[id].address == Some(address)
      ensures r.Err? ==> requests[id].breakpoint.None? && unchanged(debugger, debugger.kernel)
      ensures r.Ok? ==>
        && requests[id].breakpoint == Some(old(debugger.nextBreakpointId))
        && old(debugger.nextBreakpointId) !in old(debugger.active.ids)
        && debugger.active.ids == old(debugger.active.ids)[old(debugger.nextBreakpointId) := address]
      ensures EntriesKept(old(debugger.active), debugger.active, None, old(debugger.nextBreakpointId))
    {
      hide Sane, Ledger, LeadsInto, WorldOf, IsArmed, Mapped;
      NothingSeen(code);
      var request := requests[id].(address := Some(address));
      Unanswers(requests, (loaderId, bootstrapId), debugger.nextBreakpointId, id, request);
      requests := requests[id := request];
      ghost var s := debugger.View();
      var added := Arm(address, code);
      if added.Err? {
        return Err(added.error);
      }
      ArmingKeepsEntries(s, address, debugger.View());
      request := request.(breakpoint := Some(added.value));
      AnswersRequest(requests, (loaderId, bootstrapId), added.value, id, request);
      requests := requests[id := request];
      return Ok(());
    }

    /** Forgets the breakpoint of a stale request, as if its code were gone. */
    method Forget(id: nat, ghost code: set<int>) returns (found: bool)
      requires Sane(debugger, code) && debugger.IsStopped()
      modifies debugger`active, debugger`trace
      ensures Sane(debugger, code) && SameProcess(old(Now()), Now())
      ensures found <==> id in old(debugger.active.ids)
      ensures !found ==> unchanged(debugger)
      ensures debugger.active.ids == old(debugger.active.ids) - {id}
      ensures EntriesKept(old(debugger.active), debugger.active, Some(id), debugger.nextBreakpointId)
      ensures debugger.Pid() !in debugger.retained
      ensures found ==> old(debugger.active.ids)[id] in old(debugger.active.table)
      ensures found ==>
        var a := old(debugger.active.ids)[id];
        WorldOf(debugger.View(), debugger.policy) ==
        PatchedWorld(old(WorldOf(debugger.View(), debugger.policy)), if old(debugger.active.table)[a].installed then {a} else {})
    {
      hide Consistent, Logical, WorldOf, PatchedWorld;
      ghost var s := debugger.View();
      ConsistentHasRegistry(s);
      if id in debugger.active.ids {
        DiscardSeen(s, debugger.policy, id);
        ErasingKeepsEntries(s, id);
      }
      found := debugger.DiscardBreakpoint(id);
    }

    /** After a completed reconciliation every request has a breakpoint exactly when its
        target resolves, at the resolved address, and the table holds it unless it was
        overlooked. The INT3 of every stale breakpoint that was gone through stays with the
        program, and nothing else does. */
    method ReconcileRequests(ghost code: set<int>) returns (r: Result<()>, ghost n: nat)
      requires Valid(code) && debugger.IsStopped()
      modifies this`requests, debugger, debugger.kernel
      ensures Valid(code) && SameProcess(old(Now()), Now())
      ensures requests.Keys == old(requests).Keys && Unowned(Now()) == old(Unowned(Now()))
      ensures r.Ok? ==> n == nextRequestId && forall id :: id in requests ==> IsConverged(loader, old(Now()), Now(), id)
      ensures debugger.Pid() !in debugger.retained
      ensures WorldOf(debugger.View(), debugger.policy) ==
              PatchedWorld(old(WorldOf(debugger.View(), debugger.policy)), StaleBelow(loader, old(Now()), n))
      ensures forall a :: a in StaleBelow(loader, old(Now()), n) ==> a in old(debugger.active.table)
      ensures Unseen(old(Now()), Now()) <==>
        forall a :: a in StaleBelow(loader, old(Now()), n) ==> old(debugger.active.table)[a].original == INT3
    {
      hide Sane, Ledger, LeadsInto, Unclaimed, WorldOf, PatchedWorld, Stale, Consistent, Converged, EntriesKept, EntriesAgree;
      ghost var m0 := Now();
      NothingSeen(code);
      ConsistentNow(code);
      EntriesAgreeNow(code);
      PatchedTwice(WorldOf(m0.view, m0.policy), {}, {});
      var id := 0;
      while id < nextRequestId
        invariant id <= nextRequestId && Valid(code) && SameProcess(m0, Now())
        invariant requests.Keys == m0.desk.requests.Keys && Unowned(Now()) == Unowned(m0)
        invariant forall k :: k in requests && k < id ==> IsConverged(loader, m0, Now(), k)
        invariant debugger.Pid() !in debugger.retained
        invariant WorldOf(debugger.View(), debugger.policy) ==
                  PatchedWorld(WorldOf(m0.view, m0.policy), StaleBelow(loader, m0, id))
        invariant forall k :: k in requests && id <= k ==> Untouched(m0, Now(), k)
      {
        if id in requests {
          ghost var m := Now();
          StaleAsBefore(loader, m0, m, id);
          r := ReconcileOne(id, code);
          ReboundClaims(m.view.active.ids, m.desk.requests, Internal(m.desk), m.view.nextId, id, requests[id],
                        debugger.active.ids);
          PatchedTwice(WorldOf(m0.view, m0.policy), StaleBelow(loader, m0, id), Stale(loader, m0, id));
          if r.Err? {
            n := id + 1;
            StaleUnseenIff(loader, m0, n);
            return;
          }
          OthersUntouched(m0, m, Now(), id);
          OthersConverged(loader, m0, m, Now(), id);
        } else {
          NoRequestIsStale(loader, m0, id);
        }
        id := id + 1;
      }
      r, n := Ok(()), id;
      StaleUnseenIff(loader, m0, n);
    }

    /** A stop at the bootstrap address: the bootstrap breakpoint goes, if there is one, and
        the loader is watched where it reports changes. */
    method WatchAgain(stop: StopInfo, ghost code: set<int>) returns (r: Result<()>)
      requires Valid(code) && debugger.IsStopped() && bootstrapAddress.Some? && stop.address == Some(bootstrapAddress.value)
      modifies this, debugger, debugger.kernel
      ensures Valid(code) && SameProcess(old(Now()), Now()) && Unseen(old(Now()), Now())
      ensures unchanged(this`nextRequestId, this`requests) && bootstrapAddress.None? && bootstrapId.None?
      ensures Unowned(Now()) == old(Unowned(Now())) + old(Lost(loader, Now(), stop))
      ensures old(bootstrapId.None? && LoaderReady(loader, Now())) ==>
        r.Ok? && Watches(loader, old(Now().(desk := Memory().(bootstrapAddress := None))), Now())
    {
      hide Sane, LeadsInto, CanArm, WorldOf, Unclaimed, Requested;
      RemoveBootstrapBreakpoint(code);
      ghost var m := Now();
      var installed := TryInstallLoaderBreakpoint(code);
      if installed == Ok(true) {
        LoaderClaims(m.view.active.ids, requests, Internal(m.desk), m.view.nextId, loaderAddress.value);
      }
      if installed.Err? {
        return Err(installed.error);
      }
      if !installed.value {
        return Err(RuntimeError);
      }
      return Ok(());
    }

    /** A stop of the loader's, or one taken for it. It leaves a breakpoint to nobody exactly
        when `Orphans` says so. */
    method HandleInternalStop(stop: StopInfo, ghost code: set<int>) returns (r: Result<()>)
      requires Valid(code) && debugger.IsStopped() && stop.address.Some?
      modifies this, debugger, debugger.kernel
      ensures Valid(code) && unchanged(this`nextRequestId)
      ensures Handled(loader, old(Now()), stop, Now(), r)
      ensures Unowned(Now()) != old(Unowned(Now())) <==> old(Orphans(loader, Now(), stop))
      ensures !old(IsInternalStop(Memory(), stop)) && stop.reason == BreakpointHit ==> r.Err? && Now() == old(Now())
    {
      hide Sane, Ledger, LeadsInto, CanArm, Converged, Held, Unclaimed, WorldOf, PatchedWorld, Stale, BreakAt;
      LostWasOwned(loader, Now(), stop);
      if bootstrapAddress.Some? && stop.address.value == bootstrapAddress.value {
        var installed := WatchAgain(stop, code);
        if installed.Err? {
          return Err(installed.error);
        }
      } else if !(loaderAddress.Some? && stop.address.value == loaderAddress.value) {
        return Err(LogicError);
      }
      var settled := IsSettled();
      if settled.Err? {
        return Err(settled.error);
      }
      if settled.value {
        ghost var n;
        r, n := ReconcileRequests(code);
        return;
      }
      return Ok(());
    }

    // ----- continuing -----

    method RunOn(signals: SignalPolicy, ghost code: set<int>) returns (r: Result<StopInfo>)
      requires Valid(code)
      modifies debugger, debugger.kernel
      ensures Valid(code) && RanOn(old(Now()), r, Now())
      ensures old(debugger.IsStopped()) ==>
        FirstReport(debugger.kernel.respond, old(debugger.View()), signals, old(debugger.kernel.clock), debugger.View(), r)
    {
      hide Consistent, Discreet, Outcome, AfterContinue, Continued, SameProgram, LeadsInto, Ledger, FirstReport, Requested;
      DiscreetBelow(debugger.kernel.moves, debugger.active.table.Keys, code);
      ghost var s := debugger.View();
      ghost var start, stopped;
      r, start, stopped := debugger.ContinueExecution(signals);
      if r.Ok? {
        ContinueStaysWithin(s, debugger.policy, start, stopped, debugger.View(), r.value, code);
        OthersAfterContinue(s, debugger.policy, start, stopped, debugger.View(), r.value);
        if r.value.reason == BreakpointHit {
          AfterContinueOutcome(s, debugger.policy, start, stopped, debugger.View(), r.value);
          OwnStopIsSameProgram(start, debugger.policy, stopped, r.value);
          SameProgramStays(s, debugger.policy, start, stopped, debugger.View(), r.value);
          HitIsInTable(s, debugger.policy, start, stopped, debugger.View(), r.value);
        }
      } else {
        RefusedStaysWithin(s, debugger.View(), code);
        SameRetained(s, debugger.View());
      }
    }

    /** On to the next stop: one of the loader's is handled, any other ends the call. */
    method Round(policy: SignalPolicy, ghost code: set<int>) returns (r: Result<Option<StopInfo>>, ghost t: Turn)
      requires Valid(code)
      modifies this, debugger, debugger.kernel
      ensures Valid(code) && requests.Keys == old(requests).Keys && unchanged(this`nextRequestId)
      ensures old(Tidy(Memory())) ==> Tidy(Memory())
      ensures TurnMeans(loader, t) && t.before == old(Now()) && t.after == Now() && t.result == r
      ensures r.Ok? && r.value.Some? ==>
        loaderId.None? && loaderAddress.None? && bootstrapId.None? && bootstrapAddress.None?
      ensures IsStopped(t.before) ==>
        FirstReport(debugger.kernel.respond, t.before.view, policy, t.before.now, t.at.view, t.stop)
    {
      hide Sane, Ledger, LeadsInto, CanArm, FirstReport, WorldOf, Unclaimed, OthersIds, Watches, Orphans, WithoutInternal;
      ghost var before := Now();
      var stop := RunOn(policy, code);
      ghost var at := Now();
      if stop.Err? {
        r := Err(stop.error);
      } else if !IsInternalStop(Memory(), stop.value) {
        SuspendMonitoring(code);
        r := Ok(Some(stop.value));
      } else {
        var handled := HandleInternalStop(stop.value, code);
        r := if handled.Ok? then Ok(None) else Err(handled.error);
        assert Handled(loader, at, stop.value, Now(), handled);
      }
      t := Turn(before, at, stop, Now(), r);
    }

    /** Continues until a stop that is not the loader's; `Ok(None)` stands for a call that
        has not returned after `patience` internal stops. When it has returned nothing
        internal is set or remembered. So a breakpoint in the table of a stopped process is
        then a request's, or it was there before and not internal, or it is one of another
        process, or it is a loader breakpoint that was forgotten in one of the turns. */
    method ContinueExecution(signals: SignalPolicy, patience: nat, ghost code: set<int>)
      returns (r: Result<Option<StopInfo>>, ghost begun: Moment, ghost turns: seq<Turn>)
      requires Valid(code)
      modifies this, debugger, debugger.kernel
      ensures Valid(code) && requests.Keys == old(requests).Keys && unchanged(this`nextRequestId)
      ensures Begins(loader, old(Now()), begun) && IsSeries(loader, begun, turns, Now())
      ensures old(requests != map[] && !Monitorable(loader, Now())) ==> r.Err? && turns == []
      ensures !old(requests != map[] && !Monitorable(loader, Now())) ==> Ends(turns, patience, r)
      ensures Reports(debugger.kernel.respond, signals, turns)
      ensures old(Tidy(Memory())) ==> (Tidy(Memory()) <==> !old(requests != map[] && Blocked(loader, Now())))
      ensures r.Ok? && r.value.Some? ==>
        loaderId.None? && loaderAddress.None? && bootstrapId.None? && bootstrapAddress.None?
      ensures debugger.IsStopped() ==>
        Unowned(Now()) <= old(Unowned(Now()) + OthersIds(debugger.View())) + LostIn(loader, turns)
      ensures debugger.IsStopped() && NoneReplaced(turns) ==> Unowned(Now()) == old(Unowned(Now())) + LostIn(loader, turns)
      ensures old(Unconfused(Memory()) && !(requests != map[] && Confuses(loader, Now()))) ==>
        Unconfused(Memory()) && LostIn(loader, turns) == {}
      ensures NeverAtRisk(turns) ==> LostIn(loader, turns) == {}
      ensures OthersIds(debugger.View()) <= old(OthersIds(debugger.View()))
      ensures debugger.IsStopped() ==> old(debugger.IsStopped())
    {
      hide Sane, Ledger, LeadsInto, CanArm, WorldOf, Unclaimed, OthersIds, TurnMeans, FirstReport, IsSeries, LostIn, AtRisk,
           Watches, Confuses, Replaced;
      var monitored := EnsureMonitoring(code);
      begun, turns := Now(), [];
      SeriesBegins(loader, begun);
      if monitored.Err? {
        CallAccounts(loader, old(Now()), begun, turns, Now());
        return Err(monitored.error), begun, turns;
      }
      r := Ok(None);
      var policy, left := signals, patience;
      while left > 0 && r == Ok(None)
        invariant Valid(code) && requests.Keys == old(requests).Keys && unchanged(this`nextRequestId)
        invariant |turns| + left == patience && Ends(turns, |turns|, r) && policy == (if turns == [] then signals else Suppress)
        invariant IsSeries(loader, begun, turns, Now()) && Reports(debugger.kernel.respond, signals, turns)
        invariant old(Tidy(Memory())) ==> Tidy(Memory())
        invariant r.Ok? && r.value.Some? ==>
          loaderId.None? && loaderAddress.None? && bootstrapId.None? && bootstrapAddress.None?
        decreases left
      {
        ghost var t;
        r, t := Round(policy, code);
        SeriesGrows(loader, begun, turns, t.before, t);
        policy, left, turns := Suppress, left - 1, turns + [t];
      }
      CallAccounts(loader, old(Now()), begun, turns, Now());
    }
  }

  lemma HitIsInTable(s: State, policy: FollowPolicy, start: State, stopped: State, s': State, info: StopInfo)
    requires AfterContinue(s, policy, start, stopped, s', info) && info.reason == BreakpointHit
    ensures info.address.Some? && info.address.value in s.active.table
  {
  }

  lemma SameRetained(s: State, s': State)
    requires s'.retained == s.retained
    ensures OthersIds(s') == OthersIds(s)
  {
  }

  lemma SeriesBegins(loader: Loader, m: Moment)
    ensures IsSeries(loader, m, [], m)
  {
  }

  /** All turns but the last were handled; the last ended the call, if it did end. */
  predicate Ends(turns: seq<Turn>, patience: nat, r: Result<Option<StopInfo>>) {
    && |turns| <= patience && (forall k :: 0 <= k < |turns| - 1 ==> turns[k].result == Ok(None))
    && r == (if turns == [] then Ok(None) else turns[|turns| - 1].result)
    && (|turns| < patience ==> r != Ok(None))
  }

  /** Every turn begins with what the kernel reports first. */
  ghost predicate Reports(respond: Respond, signals: SignalPolicy, turns: seq<Turn>) {
    forall k :: 0 <= k < |turns| && IsStopped(turns[k].before) ==>
      FirstReport(respond, turns[k].before.view, if k == 0 then signals else Suppress, turns[k].before.now, turns[k].at.view,
                  turns[k].stop)
  }

  // ----- whole sessions -----

  /** A request, a withdrawal, a continue, or a breakpoint of the user's own, set or removed. */
  datatype Ask = Ask(target: Target) | Drop(request: nat) | Go(signals: SignalPolicy) | Set(address: nat) | Clear(id: nat)

  /** What this command does to what is remembered, as far as that can be seen before. */
  ghost predicate Confusing(loader: Loader, m: Moment, ask: Ask) {
    match ask
    case Ask(target) => Admitted(loader, m, target) && Confuses(loader, With(loader, m, target, 0))
    case Go(_) => m.desk.requests != map[] && Confuses(loader, m)
    case _ => false
  }

  ghost predicate Blocking(loader: Loader, m: Moment, ask: Ask) {
    match ask
    case Ask(target) => Admitted(loader, m, target) && Blocked(loader, With(loader, m, target, 0))
    case Go(_) => m.desk.requests != map[] && Blocked(loader, m)
    case _ => false
  }

  lemma NumberDoesNotMatter(loader: Loader, m: Moment, target: Target, at: nat)
    ensures Confuses(loader, With(loader, m, target, at)) == Confuses(loader, With(loader, m, target, 0))
    ensures Blocked(loader, With(loader, m, target, at)) == Blocked(loader, With(loader, m, target, 0))
  {
  }

  /** The ids the user's own breakpoints got. */
  function Given(results: seq<Option<nat>>): set<nat> {
    set k | 0 <= k < |results| && results[k].Some? :: results[k].value
  }

  /** What one command may add to the table, besides breakpoints that are accounted for. */
  ghost predicate Served(loader: Loader, m: Moment, ask: Ask, result: Option<nat>, turns: seq<Turn>, m': Moment) {
    && OthersIds(m'.view) <= OthersIds(m.view) && (IsStopped(m') ==> IsStopped(m))
    && (IsStopped(m') ==>
          Unowned(m') <= Unowned(m) + OthersIds(m.view) + (if result.Some? then {result.value} else {}) + LostIn(loader, turns))
    && (Unconfused(m.desk) && !Confusing(loader, m, ask) ==> Unconfused(m'.desk) && LostIn(loader, turns) == {})
    && (NeverAtRisk(turns) ==> LostIn(loader, turns) == {})
    && (Tidy(m.desk) && !Blocking(loader, m, ask) ==> Tidy(m'.desk))
    && (result.Some? ==> ask.Set?) && (!ask.Go? ==> turns == [])
    && (forall k :: 0 <= k < |turns| ==> TurnMeans(loader, turns[k]))
  }

  method ServeOne(deferred: DeferredBreakpoints, ask: Ask, patience: nat, ghost code: set<int>)
    returns (result: Option<nat>, ghost turns: seq<Turn>)
    requires deferred.Valid(code) && (ask.Set? ==> ask.address in code)
    modifies deferred, deferred.debugger, deferred.debugger.kernel
    ensures deferred.Valid(code) && Served(deferred.loader, old(deferred.Now()), ask, result, turns, deferred.Now())
  {
    hide Sane, Ledger, LeadsInto, CanArm, WorldOf, Unclaimed, OthersIds, TurnMeans, LostIn, AtRisk, Watches, Confuses, Blocked,
         Admitted, With, Monitorable, NeverAtRisk;
    ghost var m := deferred.Now();
    result, turns := None, [];
    assert LostIn(deferred.loader, []) == {} by { NothingIsLostIn(deferred.loader); }
    match ask {
      case Ask(target) =>
        NumberDoesNotMatter(deferred.loader, m, target, deferred.nextRequestId);
        WithKeepsDesk(deferred.loader, m, target, deferred.nextRequestId);
        var _ := deferred.AddTarget(target, code);
        SameRetained(m.view, deferred.debugger.View());
      case Drop(request) =>
        var _ := deferred.Remove(request, code);
        SameRetained(m.view, deferred.debugger.View());
      case Go(signals) =>
        var r;
        ghost var begun;
        r, begun, turns := deferred.ContinueExecution(signals, patience, code);
        SeriesMeans(deferred.loader, begun, turns, deferred.Now());
      case Set(address) =>
        var added := deferred.Arm(address, code);
        SameRetained(m.view, deferred.debugger.View());
        if added.Ok? {
          OneMoreUnclaimed(m.view.active.ids, m.desk.requests, Internal(m.desk), added.value, address);
          LedgerLater(m.desk.requests, Internal(m.desk), added.value);
          result := Some(added.value);
        }
      case Clear(id) =>
        var _ := deferred.Disarm(id, code);
        SameRetained(m.view, deferred.debugger.View());
        FewerUnclaimed(m.view.active.ids, m.desk.requests, Internal(m.desk), id);
    }
  }

  lemma NothingIsLostIn(loader: Loader)
    ensures LostIn(loader, []) == {}
  {
  }

  lemma WithKeepsDesk(loader: Loader, m: Moment, target: Target, at: nat)
    ensures Tidy(With(loader, m, target, at).desk) == Tidy(m.desk)
    ensures Unconfused(With(loader, m, target, at).desk) == Unconfused(m.desk)
  {
  }

  lemma SeriesMeans(loader: Loader, m: Moment, turns: seq<Turn>, m': Moment)
    requires IsSeries(loader, m, turns, m')
    ensures forall k :: 0 <= k < |turns| ==> TurnMeans(loader, turns[k])
  {
    hide TurnMeans;
  }

  lemma OneMoreUnclaimed(ids: map<nat, int>, requests: map<nat, Request>, internal: (Option<nat>, Option<nat>), id: nat, a: int)
    ensures Unclaimed(ids[id := a], requests, internal) <= Unclaimed(ids, requests, internal) + {id}
  {
  }

  lemma LedgerLater(requests: map<nat, Request>, internal: (Option<nat>, Option<nat>), nextId: nat)
    requires Ledger(requests, internal, nextId)
    ensures Ledger(requests, internal, nextId + 1)
  {
  }

  lemma FewerUnclaimed(ids: map<nat, int>, requests: map<nat, Request>, internal: (Option<nat>, Option<nat>), id: nat)
    ensures Unclaimed(ids - {id}, requests, internal) <= Unclaimed(ids, requests, internal)
  {
  }

  /** Over every series of requests, withdrawals, continues, and breakpoints the user sets
      and removes, refused or not: every breakpoint in the table of a stopped process is a
      request's, an internal one that is still known, the user's, one that was there or
      in another process before, or a loader breakpoint that was forgotten in one of the
      turns. There is none of the last kind as long as no command sets a loader breakpoint
      beside a bootstrap address that was left over, nor if no resumption is at risk. And
      no bootstrap address is left over as long as no bootstrap breakpoint is refused. */
  method Serve(deferred: DeferredBreakpoints, asks: seq<Ask>, patience: nat, ghost code: set<int>)
    returns (results: seq<Option<nat>>, ghost moments: seq<Moment>, ghost turns: seq<Turn>)
    requires deferred.Valid(code) && forall k :: 0 <= k < |asks| && asks[k].Set? ==> asks[k].address in code
    modifies deferred, deferred.debugger, deferred.debugger.kernel
    ensures deferred.Valid(code)
    ensures |results| == |asks| && |moments| == |asks| + 1
    ensures moments[0] == old(deferred.Now()) && moments[|asks|] == deferred.Now()
    ensures forall k :: 0 <= k < |asks| && results[k].Some? ==> asks[k].Set?
    ensures forall k :: 0 <= k < |turns| ==> TurnMeans(deferred.loader, turns[k])
    ensures deferred.debugger.IsStopped() ==>
      Unowned(deferred.Now()) <=
      old(Unowned(deferred.Now()) + OthersIds(deferred.debugger.View())) + Given(results) + LostIn(deferred.loader, turns)
    ensures old(Unconfused(deferred.Memory())) && NoneConfusing(deferred.loader, moments, asks, |asks|) ==>
      Unconfused(deferred.Memory()) && LostIn(deferred.loader, turns) == {}
    ensures NeverAtRisk(turns) ==> LostIn(deferred.loader, turns) == {}
    ensures old(Tidy(deferred.Memory())) && NoneBlocking(deferred.loader, moments, asks, |asks|) ==> Tidy(deferred.Memory())
  {
    hide Sane, Ledger, LeadsInto, TurnMeans, LostIn, OthersIds, Unowned, Tidy, Unconfused, Given, NeverAtRisk, Confusing,
         Blocking;
    ghost var loader, m0 := deferred.loader, deferred.Now();
    results, moments, turns := [], [m0], [];
    assert LostIn(loader, []) == {} by { NothingIsLostIn(loader); }
    var i := 0;
    while i < |asks|
      invariant i <= |asks| && deferred.Valid(code) && |results| == i && |moments| == i + 1
      invariant moments[0] == m0 && moments[i] == deferred.Now()
      invariant forall k :: 0 <= k < i && results[k].Some? ==> asks[k].Set?
      invariant forall k :: 0 <= k < |turns| ==> TurnMeans(loader, turns[k])
      invariant SoServed(loader, m0, moments, asks, i, Given(results), turns, deferred.Now())
    {
      ghost var m := deferred.Now();
      var result;
      ghost var more;
      result, more := ServeOne(deferred, asks[i], patience, code);
      ServedOn(loader, m0, moments, asks, i, results, turns, m, result, more, deferred.Now());
      results, moments, turns := results + [result], moments + [deferred.Now()], turns + more;
      i := i + 1;
    }
  }

  ghost predicate NoneConfusing(loader: Loader, moments: seq<Moment>, asks: seq<Ask>, n: nat)
    requires n <= |asks| && n < |moments|
  {
    forall k :: 0 <= k < n ==> !Confusing(loader, moments[k], asks[k])
  }

  ghost predicate NoneBlocking(loader: Loader, moments: seq<Moment>, asks: seq<Ask>, n: nat)
    requires n <= |asks| && n < |moments|
  {
    forall k :: 0 <= k < n ==> !Blocking(loader, moments[k], asks[k])
  }

  /** What the first `n` commands have come to. */
  ghost predicate SoServed(loader: Loader, m0: Moment, moments: seq<Moment>, asks: seq<Ask>, n: nat, given: set<nat>,
                           turns: seq<Turn>, m: Moment)
    requires n <= |asks| && n < |moments|
  {
    && OthersIds(m.view) <= OthersIds(m0.view)
    && (IsStopped(m) ==> Unowned(m) <= Unowned(m0) + OthersIds(m0.view) + given + LostIn(loader, turns))
    && (Unconfused(m0.desk) && NoneConfusing(loader, moments, asks, n) ==> Unconfused(m.desk) && LostIn(loader, turns) == {})
    && (NeverAtRisk(turns) ==> LostIn(loader, turns) == {})
    && (Tidy(m0.desk) && NoneBlocking(loader, moments, asks, n) ==> Tidy(m.desk))
  }

  lemma ServedOn(loader: Loader, m0: Moment, moments: seq<Moment>, asks: seq<Ask>, n: nat, results: seq<Option<nat>>,
                 turns: seq<Turn>, m: Moment, result: Option<nat>, more: seq<Turn>, m': Moment)
    requires n < |asks| && |moments| == n + 1 && |results| == n && moments[n] == m
    requires SoServed(loader, m0, moments, asks, n, Given(results), turns, m)
    requires Served(loader, m, asks[n], result, more, m')
    ensures SoServed(loader, m0, moments + [m'], asks, n + 1, Given(results + [result]), turns + more, m')
  {
    var moments', given := moments + [m'], if result.Some? then {result.value} else {};
    assert Given(results + [result]) == Given(results) + given by { GivenOn(results, result); }
    assert NoneConfusing(loader, moments', asks, n + 1) ==>
      NoneConfusing(loader, moments, asks, n) && !Confusing(loader, m, asks[n]) by {
      PrefixesAgree(loader, moments, m', asks, n);
    }
    assert NoneBlocking(loader, moments', asks, n + 1) ==>
      NoneBlocking(loader, moments, asks, n) && !Blocking(loader, m, asks[n]) by {
      PrefixesAgree(loader, moments, m', asks, n);
    }
    assert NeverAtRisk(turns + more) ==> NeverAtRisk(turns) && NeverAtRisk(more) by { RisksOfBoth(turns, more); }
    hide Confusing, Blocking, NoneConfusing, NoneBlocking, NeverAtRisk, TurnMeans, LostIn, OthersIds, Unowned, Tidy, Unconfused,
         Given, IsStopped;
    LostInBoth(loader, turns, more);
  }

  lemma GivenOn(results: seq<Option<nat>>, result: Option<nat>)
    ensures Given(results + [result]) == Given(results) + if result.Some? then {result.value} else {}
  {
    var more := results + [result];
    forall i
      ensures i in Given(more) <==> i in Given(results) || result == Some(i)
    {
      if i in Given(results) {
        var k :| 0 <= k < |results| && results[k] == Some(i);
        assert more[k] == Some(i);
      }
      if result == Some(i) {
        assert more[|results|] == Some(i);
      }
    }
  }

  lemma PrefixesAgree(loader: Loader, moments: seq<Moment>, m: Moment, asks: seq<Ask>, n: nat)
    requires n < |asks| && |moments| == n + 1
    ensures NoneConfusing(loader, moments + [m], asks, n + 1) ==>
      NoneConfusing(loader, moments, asks, n) && !Confusing(loader, moments[n], asks[n])
    ensures NoneBlocking(loader, moments + [m], asks, n + 1) ==>
      NoneBlocking(loader, moments, asks, n) && !Blocking(loader, moments[n], asks[n])
  {
    hide Confusing, Blocking;
    assert forall k :: 0 <= k <= n ==> (moments + [m])[k] == moments[k];
  }

  lemma RisksOfBoth(turns: seq<Turn>, more: seq<Turn>)
    ensures NeverAtRisk(turns + more) ==> NeverAtRisk(turns) && NeverAtRisk(more)
  {
    hide AtRisk;
    assert forall k :: 0 <= k < |turns| ==> (turns + more)[k] == turns[k];
    assert forall k :: 0 <= k < |more| ==> (turns + more)[|turns| + k] == more[k];
  }
}

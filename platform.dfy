/**
 The EclipseLink server platform that takes its `TransactionManager`,
 `Executor` and `MBeanServer` from the CDI container instead of from JNDI.

 The container's contents are passed in as a `Contents` value at each call
 that consults the container, standing for
 `CDI.current()` at that moment, so that it can be populated between calls.
 The ghost field `selects` counts the `select` calls the platform makes, so
 that "a failed probe is never cached" can be stated as "every later probe
 queries the registry again".
 */
module Platform {
  import opened Wrappers
  import opened Registry

  /** An opaque task handed to `launchContainerRunnable`. */
  datatype Runnable = Runnable(id: nat)

  /** Where `launchContainerRunnable` sends its task. */
  datatype Launch =
    | OnExecutor(executor: Bean, runnable: Runnable)  // `executor.execute(runnable)`
    | OnHost(passed: Option<Runnable>)                // `super.launchContainerRunnable(runnable)`

  /** The value of `externalTransactionControllerClass`. */
  datatype ControllerClass =
    | CdiTransactionController       // the nested `TransactionController`, which asks CDI for the manager
    | HostController(name: string)   // any class the host or a caller put there first

  /** The lookup kinds of EclipseLink's `JNDIConnector`. */
  const UndefinedLookup: int := -1
  const StringLookup: int := 1
  const CompositeNameLookup: int := 2
  const CompoundNameLookup: int := 3

  /** The outcome of one `isRuntimeServicesEnabledDefault` call. */
  datatype ProbeStep = ProbeStep(enabled: bool, cache: Option<Selection>, selects: nat)

  /**
   One `isRuntimeServicesEnabledDefault` call, from the cached `MBeanServer`
   selection before the call. With a cached selection nothing is selected
   again, the cache stays, and the answer is whether the cached selection is
   still satisfied. Without one, the answer is whether the registry offers an
   `MBeanServer` at all; a positive answer caches the selection that
   succeeded, a negative one caches nothing.
   */
  function Probe(cache: Option<Selection>, reg: Contents): (s: ProbeStep)
    ensures cache.Some? ==> s.cache == cache && s.selects == 0 && (s.enabled <==> Satisfied(reg, cache.value))
    ensures cache.None? ==> (s.enabled <==> Offers(reg, MBeanServer))
    ensures cache.None? && !s.enabled ==> s.cache.None?
    ensures cache.None? && s.enabled ==> s.cache == Some(Resolve(reg, MBeanServer).selection)
    ensures cache.None? ==> s.selects == Attempts(reg, MBeanServer)
  {
    if cache.Some? then ProbeStep(Satisfied(reg, cache.value), cache, 0)
    else match Resolve(reg, MBeanServer)
      case Found(sel, _) => ProbeStep(true, Some(sel), Attempts(reg, MBeanServer))
      case Unsatisfied => ProbeStep(false, None, Attempts(reg, MBeanServer))
  }

  /**
   The `mBeanServer` field after `getMBeanServer`: a field already set is kept;
   a null one is filled from the cached selection exactly when that selection
   is satisfied now, and with the bean it resolves to.
   */
  function Materialize(server: Option<Bean>, cache: Option<Selection>, reg: Contents): (r: Option<Bean>)
    requires server.None? ==> cache.Some?
    ensures server.Some? ==> r == server
    ensures server.None? ==> (r.Some? <==> Satisfied(reg, cache.value))
    ensures server.None? && r.Some? ==> r.value == reg[cache.value]
  {
    if server.None? && Satisfied(reg, cache.value) then Some(reg[cache.value]) else server
  }

  /**
   After a successful first probe, materialising against the same registry
   yields exactly the bean that qualifier-first resolution found.
   */
  lemma ProbeThenMaterialize(reg: Contents)
    requires Offers(reg, MBeanServer)
    ensures Probe(None, reg).cache.Some?
    ensures Materialize(None, Probe(None, reg).cache, reg) == Resolve(reg, MBeanServer).Instance()
  {
  }

  class CdiSePlatform {
    /** The host's JTA flag; only `disableJTA` in the constructor writes it. */
    var jtaEnabled: bool
    /** Java `final`: chosen once by the constructor and never re-resolved. */
    const executor: Option<Bean>
    /** The `MBeanServer` selection, cached once a probe succeeds. */
    var mBeanServerInstance: Option<Selection>
    /** The host's `mBeanServer` field. */
    var mBeanServer: Option<Bean>
    /** The host's `externalTransactionControllerClass` field. */
    var externalTransactionControllerClass: Option<ControllerClass>
    /** The number of `select` calls this platform has made. */
    ghost var selects: nat

    /**
     JTA stays enabled exactly when an unqualified `TransactionManager` is
     registered. The executor is the `@Eclipselink` one when there is one,
     otherwise the unqualified one, otherwise none. The host's fields start
     null and JTA starts enabled.
     */
    constructor (reg: Contents)
      ensures jtaEnabled <==> Satisfied(reg, Unqualified(TransactionManager))
      ensures executor == Resolve(reg, Executor).Instance()
      ensures mBeanServerInstance.None? && mBeanServer.None? && externalTransactionControllerClass.None?
      ensures selects == 1 + Attempts(reg, Executor)
    {
      jtaEnabled := true;
      mBeanServerInstance := None;
      mBeanServer := None;
      externalTransactionControllerClass := None;
      ghost var queries := 1;
      if !Satisfied(reg, Unqualified(TransactionManager)) {
        jtaEnabled := false;
      }
      var executorInstance := Qualified(Executor);
      queries := queries + 1;
      if !Satisfied(reg, executorInstance) {
        executorInstance := Unqualified(Executor);
        queries := queries + 1;
      }
      if !Satisfied(reg, executorInstance) {
        executor := None;
      } else {
        executor := Some(reg[executorInstance]);
      }
      selects := queries;
    }

    /** `isRuntimeServicesEnabledDefault`: the probe for an `MBeanServer`. */
    method IsRuntimeServicesEnabledDefault(reg: Contents) returns (enabled: bool)
      modifies this`mBeanServerInstance, this`selects
      ensures enabled == Probe(old(mBeanServerInstance), reg).enabled
      ensures mBeanServerInstance == Probe(old(mBeanServerInstance), reg).cache
      ensures selects == old(selects) + Probe(old(mBeanServerInstance), reg).selects
    {
      var instance := mBeanServerInstance;
      if instance.None? {
        var sel := Qualified(MBeanServer);
        selects := selects + 1;
        if !Satisfied(reg, sel) {
          sel := Unqualified(MBeanServer);
          selects := selects + 1;
        }
        if !Satisfied(reg, sel) {
          enabled := false;
        } else {
          mBeanServerInstance := Some(sel);
          enabled := true;
        }
      } else {
        enabled := Satisfied(reg, instance.value);
      }
    }

    /**
     `getMBeanServer`: fills a null `mBeanServer` from the cached selection,
     then answers through the host's accessor, which returns the field and,
     while it is still null, runs the host's own search and stores what that
     finds. The outcome of that search is the parameter `hostSearch`. A null
     field requires a cached selection (the source asserts it). A field that
     is already set, by CDI or by the host, is kept and CDI is not consulted.
     */
    method GetMBeanServer(reg: Contents, hostSearch: Option<Bean>) returns (r: Option<Bean>)
      requires mBeanServer.None? ==> mBeanServerInstance.Some?
      modifies this`mBeanServer
      ensures Materialize(old(mBeanServer), mBeanServerInstance, reg).Some? ==>
                mBeanServer == Materialize(old(mBeanServer), mBeanServerInstance, reg)
      ensures Materialize(old(mBeanServer), mBeanServerInstance, reg).None? ==> mBeanServer == hostSearch
      ensures r == mBeanServer
    {
      if mBeanServer.None? {
        var instance := mBeanServerInstance;
        if Satisfied(reg, instance.value) {
          mBeanServer := Some(reg[instance.value]);
        }
      }
      // super.getMBeanServer()
      if mBeanServer.None? {
        mBeanServer := hostSearch;
      }
      r := mBeanServer;
    }

    /**
     `launchContainerRunnable`: the task goes to the stored executor exactly
     when both the task and the executor are non-null; otherwise the host's
     default receives the same (possibly null) task. No state changes.
     */
    method LaunchContainerRunnable(runnable: Option<Runnable>) returns (launch: Launch)
      ensures launch.OnExecutor? <==> runnable.Some? && executor.Some?
      ensures launch.OnExecutor? ==> launch.executor == executor.value && launch.runnable == runnable.value
      ensures launch.OnHost? ==> launch.passed == runnable
    {
      if runnable.Some? && executor.Some? {
        launch := OnExecutor(executor.value, runnable.value);
      } else {
        launch := OnHost(runnable);
      }
    }

    /**
     `getExternalTransactionControllerClass`: installs the CDI-backed
     controller only when the field is null, and returns the field, which is
     never null afterwards. A value already there is kept, so a second call
     returns what the first did.
     */
    method GetExternalTransactionControllerClass() returns (c: ControllerClass)
      modifies this`externalTransactionControllerClass
      ensures old(externalTransactionControllerClass).Some? ==> c == old(externalTransactionControllerClass).value
      ensures old(externalTransactionControllerClass).None? ==> c == CdiTransactionController
      ensures externalTransactionControllerClass == Some(c)
    {
      if externalTransactionControllerClass.None? {
        externalTransactionControllerClass := Some(CdiTransactionController);
      }
      c := externalTransactionControllerClass.value;
    }

    /**
     `getJNDIConnectorLookupType`: the undefined lookup kind, which is none of
     the kinds by which JNDI would be searched.
     */
    function JndiConnectorLookupType(): (t: int)
      ensures t < 0
      ensures t !in {StringLookup, CompositeNameLookup, CompoundNameLookup}
    {
      UndefinedLookup
    }
  }

  /** The outcome of a sequence of probes, one per registry snapshot. */
  datatype RunOutcome = RunOutcome(results: seq<bool>, cache: Option<Selection>, selects: nat)

  /**
   Successive `isRuntimeServicesEnabledDefault` calls, the i-th made while the
   container holds `regs[i]`, starting from the cached selection `cache`.
   */
  function ProbeRun(cache: Option<Selection>, regs: seq<Contents>): (o: RunOutcome)
    ensures |o.results| == |regs|
    decreases |regs|
  {
    if regs == [] then RunOutcome([], cache, 0)
    else
      var step := Probe(cache, regs[0]);
      var rest := ProbeRun(step.cache, regs[1..]);
      RunOutcome([step.enabled] + rest.results, rest.cache, step.selects + rest.selects)
  }

  /**
   Negative results are never cached: while no snapshot offers an
   `MBeanServer`, every probe answers false, queries twice, and leaves the
   cache empty.
   */
  lemma {:induction false} NegativeResultsNotCached(regs: seq<Contents>)
    requires forall i :: 0 <= i < |regs| ==> !Offers(regs[i], MBeanServer)
    ensures true !in ProbeRun(None, regs).results
    ensures ProbeRun(None, regs).cache.None?
    ensures ProbeRun(None, regs).selects == 2 * |regs|
  {
    if regs != [] {
      NegativeResultsNotCached(regs[1..]);
    }
  }

  /**
   Once a selection is cached, no probe selects again, the cache is never
   replaced, and each answer is whether the cached selection is satisfied in
   that snapshot.
   */
  lemma {:induction false} CacheNeverReplaced(sel: Selection, regs: seq<Contents>)
    ensures ProbeRun(Some(sel), regs).cache == Some(sel)
    ensures ProbeRun(Some(sel), regs).selects == 0
    ensures forall i :: 0 <= i < |regs| ==> ProbeRun(Some(sel), regs).results[i] == Satisfied(regs[i], sel)
  {
    if regs != [] {
      CacheNeverReplaced(sel, regs[1..]);
    }
  }

  /** While the cached selection stays registered, every probe answers true. */
  lemma StaysEnabledWhileRegistered(sel: Selection, regs: seq<Contents>)
    requires forall i :: 0 <= i < |regs| ==> Satisfied(regs[i], sel)
    ensures false !in ProbeRun(Some(sel), regs).results
  {
    CacheNeverReplaced(sel, regs);
  }

  /**
   Starting without a cache, the cache is still empty after a run exactly
   when no probe of the run answered true.
   */
  lemma {:induction false} EmptyCacheIffNeverEnabled(regs: seq<Contents>)
    ensures ProbeRun(None, regs).cache.None? <==> true !in ProbeRun(None, regs).results
  {
    if regs != [] {
      var step := Probe(None, regs[0]);
      if step.enabled {
        CacheNeverReplaced(step.cache.value, regs[1..]);
      } else {
        EmptyCacheIffNeverEnabled(regs[1..]);
      }
    }
  }

  /**
   Probes against snapshots without an `MBeanServer`, then one against a
   snapshot that offers one, answer false each time and then true; the
   selection that qualifier-first resolution finds in the last snapshot is
   what ends up cached.
   */
  lemma {:induction false} EnabledOncePopulated(empties: seq<Contents>, reg: Contents)
    requires forall i :: 0 <= i < |empties| ==> !Offers(empties[i], MBeanServer)
    requires Offers(reg, MBeanServer)
    ensures forall i :: 0 <= i < |empties| ==> !ProbeRun(None, empties + [reg]).results[i]
    ensures ProbeRun(None, empties + [reg]).results[|empties|]
    ensures ProbeRun(None, empties + [reg]).cache == Some(Resolve(reg, MBeanServer).selection)
    ensures ProbeRun(None, empties + [reg]).selects == 2 * |empties| + Attempts(reg, MBeanServer)
  {
    if empties == [] {
      assert empties + [reg] == [reg];
    } else {
      assert (empties + [reg])[1..] == empties[1..] + [reg];
      EnabledOncePopulated(empties[1..], reg);
    }
  }

  /**
   A container that is empty for two probes and then offers an `MBeanServer`:
   the platform answers false, false, true, with two selects for each empty
   probe, exactly as the probe-run model predicts.
   */
  method ProbeUntilPopulated(first: Contents, second: Contents, populated: Contents)
    returns (results: seq<bool>, ghost queries: seq<nat>)
    requires !Offers(first, MBeanServer) && !Offers(second, MBeanServer)
    requires Offers(populated, MBeanServer)
    ensures results == [false, false, true]
    ensures results == ProbeRun(None, [first, second, populated]).results
    ensures queries == [2, 2, Attempts(populated, MBeanServer)]
  {
    var p := new CdiSePlatform(first);
    ghost var before := p.selects;
    var a := p.IsRuntimeServicesEnabledDefault(first);
    ghost var afterFirst := p.selects;
    var b := p.IsRuntimeServicesEnabledDefault(second);
    ghost var afterSecond := p.selects;
    var c := p.IsRuntimeServicesEnabledDefault(populated);
    results := [a, b, c];
    queries := [afterFirst - before, afterSecond - afterFirst, p.selects - afterSecond];
    assert [first, second] + [populated] == [first, second, populated];
    EnabledOncePopulated([first, second], populated);
  }

  /**
   A task submitted after start-up goes to the `@Eclipselink` executor when
   one is registered, otherwise to the unqualified one, otherwise to the host.
   */
  method SubmitAfterStartup(reg: Contents, task: Runnable) returns (launch: Launch)
    ensures Satisfied(reg, Qualified(Executor)) ==> launch == OnExecutor(reg[Qualified(Executor)], task)
    ensures !Satisfied(reg, Qualified(Executor)) && Satisfied(reg, Unqualified(Executor)) ==>
              launch == OnExecutor(reg[Unqualified(Executor)], task)
    ensures !Offers(reg, Executor) ==> launch == OnHost(Some(task))
  {
    var p := new CdiSePlatform(reg);
    launch := p.LaunchContainerRunnable(Some(task));
  }

  /**
   JTA disabled at construction stays disabled, whatever the container holds
   when the platform is later probed and used.
   */
  method JtaStaysDisabled(boot: Contents, later: Contents) returns (jta: bool)
    requires !Satisfied(boot, Unqualified(TransactionManager))
    ensures !jta
  {
    var p := new CdiSePlatform(boot);
    var enabled := p.IsRuntimeServicesEnabledDefault(later);
    if enabled {
      var server := p.GetMBeanServer(later, None);
    }
    var controller := p.GetExternalTransactionControllerClass();
    jta := p.jtaEnabled;
  }
}

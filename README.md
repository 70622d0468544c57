# CDI server platform for EclipseLink, modelled in Dafny

`CDISEPlatform` is the EclipseLink server platform that obtains its
`TransactionManager`, task `Executor` and JMX `MBeanServer` from the CDI
container instead of from JNDI. Its decisions are:

- at construction, JTA is disabled when no `TransactionManager` is registered,
  and the executor is chosen once: the `@Eclipselink`-qualified one, else the
  unqualified one, else none;
- `isRuntimeServicesEnabledDefault` looks for an `MBeanServer` with the same
  qualifier-first rule and caches the selection only when it succeeds, so a
  failed probe is repeated on the next call;
- `getMBeanServer` fills the host's `mBeanServer` field once, from the cached
  selection;
- `launchContainerRunnable` hands a task to the stored executor, or to the
  host's default when there is no executor or no task;
- `getExternalTransactionControllerClass` installs the CDI-backed controller
  class only when none is set, and `getJNDIConnectorLookupType` always
  answers "undefined lookup".

The model has three files:

- `wrappers.dfy` holds `Option`, which stands for a nullable Java reference.
- `registry.dfy` models the CDI container as a map from a selection (a
  capability plus an optional `@Eclipselink` tag) to a bean. A missing entry
  means the selection is unsatisfied. The file also holds the qualifier-first
  `Resolve`.
- `platform.dfy` holds the class `CdiSePlatform`. Its fields are the Java
  fields and the host fields the source writes. The executor is a `const`,
  because the Java field is `final`. The constructor and the four methods
  mirror the Java constructor and methods. `IsRuntimeServicesEnabledDefault`
  is proved against the pure function `Probe`, and `GetMBeanServer` against
  the pure function `Materialize`; the others state their results directly.
  A ghost counter `selects` counts the `select` calls made on the container;
  the `isUnsatisfied()` checks on a selection already obtained are not
  counted. The pure `ProbeRun` describes a sequence of probes, and lemmas
  state what such sequences do. Three client methods drive the class through
  three scenarios: `ProbeUntilPopulated`, a container that is empty for two
  probes and then holds an `MBeanServer`; `SubmitAfterStartup`, a task
  submitted after start-up; and `JtaStaysDisabled`, JTA disabled at start-up
  while the container later gains a `TransactionManager`.

The constructor, `IsRuntimeServicesEnabledDefault` and `GetMBeanServer` take
the container's contents (`Contents`) as a parameter, standing for what the
container holds at the moment of the call, so a test can populate it between
calls. `LaunchContainerRunnable`, `GetExternalTransactionControllerClass` and
`JndiConnectorLookupType` do not consult the container and take no such
parameter.

A cached probe result is not frozen. Once it has cached a selection, the
probe never selects again. It answers `!instance.isUnsatisfied()` on the
cached handle (`CDISEPlatform.java:139-140`), which asks the container the
handle came from. The model evaluates the cached selection against the
contents passed to that call (`CacheNeverReplaced`). The answer stays true
only while that selection remains registered (`StaysEnabledWhileRegistered`).
A probe that once answered true is not promised to answer true forever.

## Model

| member | source | states |
|---|---|---|
| Registry.Resolve | src/main/java/org/microbean/eclipselink/cdi/CDISEPlatform.java:102-112 | qualifier-first lookup finds something exactly when the capability is registered with or without the tag; the result is a registered bean of that capability; the tagged bean wins when both exist; the untagged one is used only when the tagged one is missing |
| Registry.Attempts | src/main/java/org/microbean/eclipselink/cdi/CDISEPlatform.java:126-131 | the lookup makes one `select` exactly when the qualified selection succeeds, otherwise two |
| Platform.Probe | src/main/java/org/microbean/eclipselink/cdi/CDISEPlatform.java:122-143 | with a cached selection: no select, cache kept, answer is whether it is still satisfied; without one: answer is whether an `MBeanServer` is offered, success caches the resolved selection, failure caches nothing |
| Platform.Materialize | src/main/java/org/microbean/eclipselink/cdi/CDISEPlatform.java:147-153 | a set `mBeanServer` is never overwritten; a null one is filled exactly when the cached selection is satisfied, with the bean it resolves to |
| Platform.ProbeThenMaterialize | src/main/java/org/microbean/eclipselink/cdi/CDISEPlatform.java:135-151 | after a successful first probe, materialising yields exactly the bean qualifier-first resolution found |
| Platform.CdiSePlatform.constructor | src/main/java/org/microbean/eclipselink/cdi/CDISEPlatform.java:95-113 | JTA stays enabled exactly when an unqualified `TransactionManager` is registered; executor is the tagged one, else the untagged one, else none; one select for the manager plus one or two for the executor |
| Platform.CdiSePlatform.IsRuntimeServicesEnabledDefault | src/main/java/org/microbean/eclipselink/cdi/CDISEPlatform.java:122-143 | answer, new cached selection and queries made are those of `Probe` on the old cache; nothing else changes |
| Platform.CdiSePlatform.GetMBeanServer | src/main/java/org/microbean/eclipselink/cdi/CDISEPlatform.java:146-155 | requires a cached selection while `mBeanServer` is null; a set field is kept; a null one is filled by `Materialize` from the cached selection when that is satisfied, otherwise by the host's own search (`super.getMBeanServer()`); returns the field |
| Platform.CdiSePlatform.LaunchContainerRunnable | src/main/java/org/microbean/eclipselink/cdi/CDISEPlatform.java:158-164 | the task goes to the stored executor if and only if task and executor are both non-null; otherwise the host receives the same task; no state changes |
| Platform.CdiSePlatform.GetExternalTransactionControllerClass | src/main/java/org/microbean/eclipselink/cdi/CDISEPlatform.java:176-181 | a controller class already set is kept and returned; a null one becomes the CDI-backed `TransactionController`; the field is never null afterwards |
| Platform.CdiSePlatform.JndiConnectorLookupType | src/main/java/org/microbean/eclipselink/cdi/CDISEPlatform.java:189-191 | the lookup type is the undefined one: negative and none of the string, composite-name or compound-name lookups |
| Platform.ProbeRun | src/main/java/org/microbean/eclipselink/cdi/CDISEPlatform.java:122-143 | a sequence of probes answers once per container snapshot |
| Platform.NegativeResultsNotCached | src/main/java/org/microbean/eclipselink/cdi/CDISEPlatform.java:123-138 | while no snapshot offers an `MBeanServer`, every probe answers false, the cache stays empty, and each probe makes two selects |
| Platform.CacheNeverReplaced | src/main/java/org/microbean/eclipselink/cdi/CDISEPlatform.java:123-141 | once a selection is cached, later probes make no select, never replace the cache, and answer whether the cached selection is satisfied |
| Platform.StaysEnabledWhileRegistered | src/main/java/org/microbean/eclipselink/cdi/CDISEPlatform.java:139-140 | while the cached selection stays registered, every later probe answers true |
| Platform.EmptyCacheIffNeverEnabled | src/main/java/org/microbean/eclipselink/cdi/CDISEPlatform.java:133-138 | starting uncached, the cache is empty after a run if and only if no probe answered true |
| Platform.EnabledOncePopulated | src/main/java/org/microbean/eclipselink/cdi/CDISEPlatform.java:123-138 | probes against empty snapshots answer false until one against a populated snapshot answers true and caches the resolved selection; the empty probes cost two selects each |
| Platform.ProbeUntilPopulated | src/main/java/org/microbean/eclipselink/cdi/CDISEPlatform.java:122-143 | the platform answers false, false, true for a container empty twice and then populated, with two selects per empty probe, in agreement with `ProbeRun` |
| Platform.SubmitAfterStartup | src/main/java/org/microbean/eclipselink/cdi/CDISEPlatform.java:102-112 | a task submitted after start-up goes to the tagged executor, else the untagged one, else the host |
| Platform.JtaStaysDisabled | src/main/java/org/microbean/eclipselink/cdi/CDISEPlatform.java:99-101 | JTA disabled at construction stays disabled through later probes and calls, whatever the container holds then |

## Left out

- The real CDI container (`CDI.current()`, `Instance`, `AnnotationLiteral`) is replaced by a `Contents` map passed to each call that consults it. Ambiguous resolution belongs to the container and is not represented. The asserts that the container and its selections are non-null (lines 98, 103, 107, 128, 132) hold by construction, because a `Contents` value and a selection always exist. The assert at line 149 becomes the precondition of `GetMBeanServer`.
- The EclipseLink host is not part of this model. `super(session)`, `disableJTA`, `super.getMBeanServer()` and `super.launchContainerRunnable()` appear only as their effects: the JTA flag, the `OnHost` dispatch, and the field written by the host's own `MBeanServer` search, whose outcome is the parameter `hostSearch` of `GetMBeanServer`. The model assumes the host's defaults: JTA enabled, and `mBeanServer` and `externalTransactionControllerClass` null. The values of the `JNDIConnector` lookup constants come from EclipseLink, not from the modelled file.
- `TransactionController.acquireTransactionManager` (lines 238-240) is a one-line foreign lookup with no decision of its own. The controller class is reduced to the constant `CdiTransactionController`.
- The `@Eclipselink` annotation and its `Literal` (lines 265-289) are reduced to the single tag `Eclipselink`.
- Concurrency is not modelled: the `volatile` on `mBeanServerInstance` and the executor's own threading are out of scope, and calls are sequential. The executor's execution of a task is reduced to the `OnExecutor` dispatch value.
- Platform.Probe: the cached `Instance` handle is re-evaluated against the contents passed to each call, standing for the container that handle came from. The unconditional "true forever once true" reading of the probe is therefore not promised; `StaysEnabledWhileRegistered` states the conditional form: true while the cached selection stays registered.
- Platform.Materialize: like the probe, it resolves the cached selection against the contents passed to the `getMBeanServer` call. If the container's bean for that selection changed since the probe, the model materialises the current bean, as asking the handle again would.
- Platform.CdiSePlatform.GetMBeanServer: the host's own search in `super.getMBeanServer()` is not modelled; its outcome is a parameter, and the model assumes it stores what it finds in `mBeanServer`.

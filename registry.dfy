/**
 The dependency registry that the platform queries (the CDI container reached
 through `CDI.current()`), abstracted as a value, and the qualifier-first
 resolution that the platform applies to the `Executor` and `MBeanServer`
 capabilities.
 */
module Registry {
  import opened Wrappers

  /** The service types the platform asks the container for. */
  datatype Capability = TransactionManager | Executor | MBeanServer

  /** The `@Eclipselink` qualifier, reduced to one opaque tag. */
  datatype Qualifier = Eclipselink

  /**
   A `select(type, qualifiers...)` request: a capability and, optionally, the
   `@Eclipselink` qualifier. A selection without a qualifier matches beans with
   the default qualifier only, as in CDI.
   */
  datatype Selection = Selection(capability: Capability, qualifier: Option<Qualifier>)

  /** An opaque bean instance handed out by the container. */
  datatype Bean = Bean(id: nat)

  /**
   The container's contents at one moment: the bean each selection resolves to.
   A selection with no entry is unsatisfied. Ambiguous resolution is the
   container's own business and is not represented.
   */
  type Contents = map<Selection, Bean>

  function Qualified(cap: Capability): Selection {
    Selection(cap, Some(Eclipselink))
  }

  function Unqualified(cap: Capability): Selection {
    Selection(cap, None)
  }

  /** `!cdi.select(...).isUnsatisfied()` */
  predicate Satisfied(reg: Contents, sel: Selection) {
    sel in reg
  }

  /** The registry offers the capability under the qualifier or without it. */
  predicate Offers(reg: Contents, cap: Capability) {
    Satisfied(reg, Qualified(cap)) || Satisfied(reg, Unqualified(cap))
  }

  /** The outcome of a qualifier-first lookup: the selection that succeeded and its bean. */
  datatype Resolution = Found(selection: Selection, bean: Bean) | Unsatisfied {
    /** The bean as a nullable reference, as the Java fields hold it. */
    function Instance(): Option<Bean> {
      if Found? then Some(bean) else None
    }
  }

  /**
   Select the capability with the `@Eclipselink` qualifier; only when that is
   unsatisfied, select it without a qualifier. Something is found exactly when
   the registry offers the capability at all; what is found is a registered
   bean of that capability; the qualified bean wins whenever it exists, and the
   unqualified one is used only in its absence.
   */
  function Resolve(reg: Contents, cap: Capability): (r: Resolution)
    ensures r.Found? <==> Offers(reg, cap)
    ensures r.Found? ==> r.selection.capability == cap && r.selection in reg && reg[r.selection] == r.bean
    ensures Satisfied(reg, Qualified(cap)) ==> r == Found(Qualified(cap), reg[Qualified(cap)])
    ensures r.Found? && r.selection != Qualified(cap) ==> !Satisfied(reg, Qualified(cap)) && r.selection == Unqualified(cap)
  {
    if Satisfied(reg, Qualified(cap)) then Found(Qualified(cap), reg[Qualified(cap)])
    else if Satisfied(reg, Unqualified(cap)) then Found(Unqualified(cap), reg[Unqualified(cap)])
    else Unsatisfied
  }

  /**
   How many `select` calls a qualifier-first lookup makes: one exactly when the
   qualified selection is what resolution settles on, otherwise two.
   */
  function Attempts(reg: Contents, cap: Capability): (n: nat)
    ensures 1 <= n <= 2
    ensures n == 1 <==> Resolve(reg, cap).Found? && Resolve(reg, cap).selection == Qualified(cap)
  {
    if Satisfied(reg, Qualified(cap)) then 1 else 2
  }
}

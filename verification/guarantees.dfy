/** The short-circuit, fallback and default rules of the callback contract,
    proved of the pipeline for every registry of post-processors. */
module Guarantees {
  import opened Wrappers
  import opened Interceptors
  import opened Pipeline

  // ---------------------------------------------------------------------
  // Phases 1 and 2
  // ---------------------------------------------------------------------

  /** A short-circuiting phase over a registry behaves as the phase over
      its first k post-processors: if that one stopped, the rest of the
      registry is never consulted; otherwise the phase simply carries on
      at position k. */
  lemma {:induction false} ChainPrefix<X, T>(ps: seq<X>, k: nat, from: nat, call: X -> Result<T, BeansException>,
                                             proceeds: T -> bool, exhausted: T, phase: Phase)
    requires from <= k <= |ps|
    requires proceeds(exhausted)
    ensures var a := RunChain(ps[..k], from, call, proceeds, exhausted, phase);
      && (a.outcome != Ok(exhausted) ==> RunChain(ps, from, call, proceeds, exhausted, phase) == a)
      && (a.outcome == Ok(exhausted) ==>
            RunChain(ps, from, call, proceeds, exhausted, phase) == RunChain(ps, k, call, proceeds, exhausted, phase))
    decreases k - from
  {
    if from < k {
      assert ps[..k][from] == ps[from];
      if Proceeds(call(ps[from]), proceeds) {
        ChainPrefix(ps, k, from + 1, call, proceeds, exhausted, phase);
      }
    }
  }

  /** With only default before-instantiation callbacks (or none at all),
      no substitute is produced and every post-processor is asked. */
  lemma DefaultBeforeChainProceeds<C, B, P, D>(ps: seq<Interceptor<C, B, P, D>>, def: BeanDefinition<C>)
    requires def.beanClass.Some?
    requires forall j :: 0 <= j < |ps| ==> ps[j].beforeInstantiation.Inherit?
    ensures RunBefore(ps, def) == Run(Ok(None), |ps|)
  {
  }

  /** The first non-null object before instantiation is the bean: the
      post-processors after it are not asked, and no after-instantiation or
      property callback runs at all. */
  lemma SubstitutionShortCircuits<C, B, P, D>(ps: seq<Interceptor<C, B, P, D>>, def: BeanDefinition<C>,
                                              instantiate: BeanDefinition<C> -> B, pvs: P, pds: D, k: nat, b: B)
    requires def.beanClass.Some?
    requires k < |ps|
    requires forall j :: 0 <= j < k ==> BeforeOf(ps[j], def.beanClass.value, def.beanName) == Ok(None)
    requires BeforeOf(ps[k], def.beanClass.value, def.beanName) == Ok(Some(b))
    ensures RunBefore(ps, def) == Run(Ok(Some(b)), k + 1)
    ensures Construct(ps, def, instantiate, pvs, pds) == Construction(Substituted(b), k + 1, 0, [])
  {
  }

  /** Once phase 1 has produced a substitute (or failed), post-processors
      registered after the deciding one make no difference. */
  lemma BeforeIgnoresLaterInterceptors<C, B, P, D>(ps: seq<Interceptor<C, B, P, D>>, qs: seq<Interceptor<C, B, P, D>>,
                                                   def: BeanDefinition<C>)
    requires def.beanClass.Some?
    requires RunBefore(ps, def).outcome != Ok(None)
    ensures RunBefore(ps + qs, def) == RunBefore(ps, def)
  {
    assert (ps + qs)[..|ps|] == ps;
    ChainPrefix(ps + qs, |ps|, 0, BeforeCall(def.beanClass.value, def.beanName), NoSubstitute(), None,
                BeforeInstantiation);
  }

  /** With only default after-instantiation callbacks (or none at all),
      population always goes ahead and every post-processor is asked. */
  lemma DefaultAfterChainProceeds<C, B, P, D>(ps: seq<Interceptor<C, B, P, D>>, bean: B, beanName: string)
    requires forall j :: 0 <= j < |ps| ==> ps[j].afterInstantiation.Inherit?
    ensures RunAfter(ps, bean, beanName) == Run(Ok(true), |ps|)
  {
  }

  /** A false answer at position k skips population and stops the phase:
      exactly the post-processors at positions 0..k are invoked. */
  lemma FalseStopsChain<C, B, P, D>(ps: seq<Interceptor<C, B, P, D>>, bean: B, beanName: string, k: nat)
    requires k < |ps|
    requires forall j :: 0 <= j < k ==> AfterOf(ps[j], bean, beanName) == Ok(true)
    requires AfterOf(ps[k], bean, beanName) == Ok(false)
    ensures RunAfter(ps, bean, beanName) == Run(Ok(false), k + 1)
  {
  }

  /** Once phase 2 has said false (or failed), post-processors registered
      after the deciding one make no difference. */
  lemma AfterIgnoresLaterInterceptors<C, B, P, D>(ps: seq<Interceptor<C, B, P, D>>, qs: seq<Interceptor<C, B, P, D>>,
                                                  bean: B, beanName: string)
    requires RunAfter(ps, bean, beanName).outcome != Ok(true)
    ensures RunAfter(ps + qs, bean, beanName) == RunAfter(ps, bean, beanName)
  {
    assert (ps + qs)[..|ps|] == ps;
    ChainPrefix(ps + qs, |ps|, 0, AfterCall(bean, beanName), KeepPopulating(), true, AfterInstantiation);
  }

  // ---------------------------------------------------------------------
  // Phase 3
  // ---------------------------------------------------------------------

  /** A post-processor's legacy callback is consulted only when its
      postProcessProperties said null: otherwise replacing the legacy
      callback by any other changes nothing. */
  lemma LegacyConsultedOnlyOnNull<C, B, P, D>(p: Interceptor<C, B, P, D>,
                                              h: Hook<(P, D, B, string) -> Result<Option<P>, BeansException>>,
                                              index: nat, pvs: P, pds: D, bean: B, beanName: string)
    requires PropertiesOf(p, pvs, bean, beanName) != Ok(None)
    ensures PropsStep(p.(propertyValues := h), index, pvs, pds, bean, beanName)
              == PropsStep(p, index, pvs, pds, bean, beanName)
    ensures !PropsStep(p, index, pvs, pds, bean, beanName).fellBack
  {
  }

  /** A null from postProcessProperties is "no opinion": the post-processor
      then behaves exactly as one that inherits postProcessProperties, its
      legacy callback deciding on the same values. */
  lemma NullDefersToLegacy<C, B, P, D>(p: Interceptor<C, B, P, D>, index: nat, pvs: P, pds: D, bean: B,
                                       beanName: string)
    requires PropertiesOf(p, pvs, bean, beanName) == Ok(None)
    ensures PropsStep(p, index, pvs, pds, bean, beanName)
              == PropsStep(p.(properties := Inherit), index, pvs, pds, bean, beanName)
    ensures PropsStep(p, index, pvs, pds, bean, beanName).fellBack
  {
  }

  /** A post-processor that keeps both property callbacks at their
      defaults falls back once and passes the values on as-is. */
  lemma DefaultStepPassesValuesOn<C, B, P, D>(p: Interceptor<C, B, P, D>, index: nat, pvs: P, pds: D, bean: B,
                                              beanName: string)
    requires p.properties.Inherit? && p.propertyValues.Inherit?
    ensures PropsStep(p, index, pvs, pds, bean, beanName) == Step(Ok(Some(pvs)), true)
  {
  }

  /** The property phase over a registry is the phase over its first k
      post-processors, continued at position k with the values they left
      (unless they already ended it): each post-processor sees the values
      as left by the previous one. */
  lemma {:induction false} PropsPrefix<C, B, P, D>(ps: seq<Interceptor<C, B, P, D>>, k: nat, from: nat,
                                                   pvs: P, pds: D, bean: B, beanName: string)
    requires from <= k <= |ps|
    ensures var a := PropsFrom(ps[..k], from, pvs, pds, bean, beanName);
      && (!Populates(a.outcome) ==> PropsFrom(ps, from, pvs, pds, bean, beanName) == a)
      && (Populates(a.outcome) ==>
            var b := PropsFrom(ps, k, a.outcome.value.value, pds, bean, beanName);
            PropsFrom(ps, from, pvs, pds, bean, beanName) == PropsRun(b.outcome, a.visits + b.visits))
    decreases k - from
  {
    var a := PropsFrom(ps[..k], from, pvs, pds, bean, beanName);
    if from == k {
      assert a.visits == [];
      var b := PropsFrom(ps, k, pvs, pds, bean, beanName);
      assert a.visits + b.visits == b.visits;
    } else {
      assert ps[..k][from] == ps[from];
      var s := PropsStep(ps[from], from, pvs, pds, bean, beanName);
      if Populates(s.result) {
        var q := s.result.value.value;
        PropsPrefix(ps, k, from + 1, q, pds, bean, beanName);
        var a' := PropsFrom(ps[..k], from + 1, q, pds, bean, beanName);
        assert a == PropsRun(a'.outcome, [Visit(pvs, s.fellBack)] + a'.visits);
        if Populates(a.outcome) {
          var b := PropsFrom(ps, k, a.outcome.value.value, pds, bean, beanName);
          assert [Visit(pvs, s.fellBack)] + (a'.visits + b.visits) == a.visits + b.visits;
        }
      }
    }
  }

  /** Per-post-processor fallback: a post-processor's legacy callback runs
      exactly when its own postProcessProperties said null, and it is handed
      the same values; what it returns is what the next post-processor sees,
      or the verdict when it was the last one invoked. */
  lemma FallbackIsPerInterceptor<C, B, P, D>(ps: seq<Interceptor<C, B, P, D>>, pvs: P, pds: D, bean: B,
                                             beanName: string, i: nat)
    requires i < |RunProps(ps, pvs, pds, bean, beanName).visits|
    ensures var r := RunProps(ps, pvs, pds, bean, beanName);
      && (r.visits[i].fellBack <==> PropertiesOf(ps[i], r.visits[i].input, bean, beanName) == Ok(None))
      && (r.visits[i].fellBack && i + 1 < |r.visits| ==>
            PropertyValuesOf(ps[i], r.visits[i].input, pds, bean, beanName) == Ok(Some(r.visits[i + 1].input)))
      && (r.visits[i].fellBack && i + 1 == |r.visits| ==>
            r.outcome == Tag(PropertyValuesOf(ps[i], r.visits[i].input, pds, bean, beanName),
                             ProcessPropertyValues, i))
      && (!r.visits[i].fellBack && i + 1 < |r.visits| ==>
            PropertiesOf(ps[i], r.visits[i].input, bean, beanName) == Ok(Some(r.visits[i + 1].input)))
      && (!r.visits[i].fellBack && i + 1 == |r.visits| ==>
            r.outcome == Tag(PropertiesOf(ps[i], r.visits[i].input, bean, beanName), ProcessProperties, i))
  {
  }

  /** A null from a legacy callback at position k, reached with working
      values w, skips population: later post-processors are not invoked,
      whatever they would have answered. */
  lemma LegacyNullSkipsPopulation<C, B, P, D>(ps: seq<Interceptor<C, B, P, D>>, pvs: P, pds: D, bean: B,
                                              beanName: string, k: nat)
    requires k < |ps|
    requires Populates(RunProps(ps[..k], pvs, pds, bean, beanName).outcome)
    requires var w := RunProps(ps[..k], pvs, pds, bean, beanName).outcome.value.value;
      && PropertiesOf(ps[k], w, bean, beanName) == Ok(None)
      && PropertyValuesOf(ps[k], w, pds, bean, beanName) == Ok(None)
    ensures var r := RunProps(ps, pvs, pds, bean, beanName);
      && r.outcome == Ok(None)
      && |r.visits| == k + 1
      && r.visits[k].fellBack
  {
    PropsPrefix(ps, k, 0, pvs, pds, bean, beanName);
    var w := RunProps(ps[..k], pvs, pds, bean, beanName).outcome.value.value;
    var b := PropsFrom(ps, k, w, pds, bean, beanName);
    assert b == PropsRun(Ok(None), [Visit(w, true)]);
  }

  /** Once the property phase has ended early (a legacy null or a
      failure), post-processors registered after that point make no
      difference. */
  lemma PropsIgnoreLaterInterceptors<C, B, P, D>(ps: seq<Interceptor<C, B, P, D>>, qs: seq<Interceptor<C, B, P, D>>,
                                                 pvs: P, pds: D, bean: B, beanName: string)
    requires !Populates(RunProps(ps, pvs, pds, bean, beanName).outcome)
    ensures RunProps(ps + qs, pvs, pds, bean, beanName) == RunProps(ps, pvs, pds, bean, beanName)
  {
    assert (ps + qs)[..|ps|] == ps;
    PropsPrefix(ps + qs, |ps|, 0, pvs, pds, bean, beanName);
  }

  /** From any position on, post-processors that keep both property
      callbacks at their defaults fall back once each and pass the values on
      unchanged. */
  lemma {:induction false} DefaultPropsFrom<C, B, P, D>(ps: seq<Interceptor<C, B, P, D>>, from: nat, pvs: P, pds: D,
                                                        bean: B, beanName: string)
    requires from <= |ps|
    requires forall j :: from <= j < |ps| ==> ps[j].properties.Inherit? && ps[j].propertyValues.Inherit?
    ensures var r := PropsFrom(ps, from, pvs, pds, bean, beanName);
      && r.outcome == Ok(Some(pvs))
      && |r.visits| == |ps| - from
      && forall i :: 0 <= i < |r.visits| ==> r.visits[i] == Visit(pvs, true)
    decreases |ps| - from
  {
    if from < |ps| {
      DefaultPropsFrom(ps, from + 1, pvs, pds, bean, beanName);
    }
  }

  /** A registry whose post-processors keep both property callbacks at
      their defaults hands back exactly the input values, each
      post-processor falling back to its legacy callback once. */
  lemma DefaultPropsChainKeepsValues<C, B, P, D>(ps: seq<Interceptor<C, B, P, D>>, pvs: P, pds: D, bean: B,
                                                 beanName: string)
    requires forall j :: 0 <= j < |ps| ==> ps[j].properties.Inherit? && ps[j].propertyValues.Inherit?
    ensures var r := RunProps(ps, pvs, pds, bean, beanName);
      && r.outcome == Ok(Some(pvs))
      && |r.visits| == |ps|
      && forall i :: 0 <= i < |ps| ==> r.visits[i] == Visit(pvs, true)
  {
    DefaultPropsFrom(ps, 0, pvs, pds, bean, beanName);
  }

  // ---------------------------------------------------------------------
  // A whole creation
  // ---------------------------------------------------------------------

  /** With only default post-processors, a creation is the container's own
      path untouched: its instance, populated with exactly the property
      values the container was about to apply. */
  lemma DefaultChainConstructsPlainly<C, B, P, D>(ps: seq<Interceptor<C, B, P, D>>, def: BeanDefinition<C>,
                                                  instantiate: BeanDefinition<C> -> B, pvs: P, pds: D)
    requires forall j :: 0 <= j < |ps| ==> ps[j].IsDefault()
    ensures var c := Construct(ps, def, instantiate, pvs, pds);
      && c.creation == Instantiated(instantiate(def), Some(pvs))
      && c.beforeInvoked == (if def.beanClass.Some? then |ps| else 0)
      && c.afterInvoked == |ps|
      && |c.visits| == |ps|
      && forall i :: 0 <= i < |ps| ==> c.visits[i] == Visit(pvs, true)
  {
    if def.beanClass.Some? {
      DefaultBeforeChainProceeds(ps, def);
    }
    DefaultAfterChainProceeds(ps, instantiate(def), def.beanName);
    DefaultPropsChainKeepsValues(ps, pvs, pds, instantiate(def), def.beanName);
  }

  /** The verdict of a creation follows from its phases, in both
      directions: a failure in any phase that runs aborts the creation with
      that very failure (carrying the callback's exception), and a creation
      whose callbacks all succeed ends substituted or instantiated. */
  lemma CreationFollowsPhases<C, B, P, D>(ps: seq<Interceptor<C, B, P, D>>, def: BeanDefinition<C>,
                                          instantiate: BeanDefinition<C> -> B, pvs: P, pds: D)
    ensures var c := Construct(ps, def, instantiate, pvs, pds);
            var before := if def.beanClass.Some? then RunBefore(ps, def).outcome else Ok(None);
            var bean := instantiate(def);
            var after := RunAfter(ps, bean, def.beanName).outcome;
            var props := RunProps(ps, pvs, pds, bean, def.beanName).outcome;
      && (before.Err? ==> c.creation == Aborted(before.error))
      && (before.Ok? && before.value.Some? ==> c.creation == Substituted(before.value.value))
      && (before == Ok(None) && after.Err? ==> c.creation == Aborted(after.error))
      && (before == Ok(None) && after == Ok(false) ==> c.creation == Instantiated(bean, None))
      && (before == Ok(None) && after == Ok(true) && props.Err? ==> c.creation == Aborted(props.error))
      && (before == Ok(None) && after == Ok(true) && props.Ok? ==> c.creation == Instantiated(bean, props.value))
  {
  }

  /** The record of a creation matches the phases that ran: phase 1's
      invocation count always; phase 2's count only when phase 1 found no
      substitute; and phase 3's visits only when every after-instantiation
      answer was true. A phase that did not run reports nothing. */
  lemma ConstructionRecordsPhases<C, B, P, D>(ps: seq<Interceptor<C, B, P, D>>, def: BeanDefinition<C>,
                                              instantiate: BeanDefinition<C> -> B, pvs: P, pds: D)
    ensures var c := Construct(ps, def, instantiate, pvs, pds);
            var before := if def.beanClass.Some? then RunBefore(ps, def) else Run(Ok(None), 0);
            var bean := instantiate(def);
            var after := RunAfter(ps, bean, def.beanName);
      && c.beforeInvoked == before.invoked
      && (before.outcome != Ok(None) ==> c.afterInvoked == 0 && c.visits == [])
      && (before.outcome == Ok(None) ==> c.afterInvoked == after.invoked)
      && (before.outcome == Ok(None) && after.outcome != Ok(true) ==> c.visits == [])
      && (before.outcome == Ok(None) && after.outcome == Ok(true) ==>
            c.visits == RunProps(ps, pvs, pds, bean, def.beanName).visits)
  {
  }
}

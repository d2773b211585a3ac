/** The construction pipeline a container drives once per bean creation:
    the registered post-processors are consulted in registration order,
    phase by phase, under the short-circuit and fallback rules of the
    callback contract. */
module Pipeline {
  import opened Wrappers
  import opened Interceptors

  /** A callback failure, tagged with the phase and the position of the
      post-processor that raised it; the exception itself is kept unchanged. */
  datatype Failure = Failure(phase: Phase, index: nat, cause: BeansException)

  /** Lifts one callback answer into the pipeline, tagging a failure. */
  function Tag<T>(res: Result<T, BeansException>, phase: Phase, index: nat): Result<T, Failure>
  {
    match res
    case Ok(v) => Ok(v)
    case Err(e) => Err(Failure(phase, index, e))
  }

  /** What the container knows about the bean to create. A definition
      without a bean class is produced by a factory method. */
  datatype BeanDefinition<C> = BeanDefinition(beanName: string, beanClass: Option<C>)

  // ---------------------------------------------------------------------
  // Phases 1 and 2: the first decisive answer ends the phase
  // ---------------------------------------------------------------------

  /** The verdict of a short-circuiting phase, and how far it got: the
      post-processors at positions below `invoked` (and at or above the
      starting position) were called, the others were not. */
  datatype Run<T> = Run(outcome: Result<T, Failure>, invoked: nat)

  /** The answer lets the phase go on to the next post-processor. */
  predicate Proceeds<T>(res: Result<T, BeansException>, proceeds: T -> bool)
  {
    res.Ok? && proceeds(res.value)
  }

  /** Calls `call` on ps[from], ps[from+1], ... until an answer does not
      proceed (it fails, or it is decisive); that answer is the verdict.
      When every answer proceeds, the verdict is `exhausted`.
      RunChainSpec states what it computes. */
  function RunChain<X, T>(ps: seq<X>, from: nat, call: X -> Result<T, BeansException>,
                          proceeds: T -> bool, exhausted: T, phase: Phase): (r: Run<T>)
    requires from <= |ps|
    requires proceeds(exhausted)
    ensures from <= r.invoked <= |ps|
    decreases |ps| - from
  {
    if from == |ps| then Run(Ok(exhausted), from)
    else
      var res := call(ps[from]);
      if Proceeds(res, proceeds) then RunChain(ps, from + 1, call, proceeds, exhausted, phase)
      else Run(Tag(res, phase, from), from + 1)
  }

  /** A short-circuiting phase asks the post-processors in order and stops
      at the first answer that does not proceed, which is its verdict; only
      when every answer proceeds is the verdict `exhausted`, with everyone
      asked. */
  lemma {:induction false} RunChainSpec<X, T>(ps: seq<X>, from: nat, call: X -> Result<T, BeansException>,
                                              proceeds: T -> bool, exhausted: T, phase: Phase)
    requires from <= |ps|
    requires proceeds(exhausted)
    ensures var r := RunChain(ps, from, call, proceeds, exhausted, phase);
      && (forall j :: from <= j < r.invoked - 1 ==> Proceeds(call(ps[j]), proceeds))
      && (r.outcome == Ok(exhausted) <==> forall j :: from <= j < |ps| ==> Proceeds(call(ps[j]), proceeds))
      && (r.outcome == Ok(exhausted) ==> r.invoked == |ps|)
      && (r.outcome != Ok(exhausted) ==>
            && from < r.invoked
            && !Proceeds(call(ps[r.invoked - 1]), proceeds)
            && r.outcome == Tag(call(ps[r.invoked - 1]), phase, r.invoked - 1))
    decreases |ps| - from
  {
    if from < |ps| && Proceeds(call(ps[from]), proceeds) {
      RunChainSpec(ps, from + 1, call, proceeds, exhausted, phase);
    }
  }

  /** Phase 1 as a call on one post-processor. */
  function BeforeCall<C, B, P, D>(beanClass: C, beanName: string)
    : Interceptor<C, B, P, D> -> Result<Option<B>, BeansException>
  {
    p => BeforeOf(p, beanClass, beanName)
  }

  /** A null answer before instantiation lets the next post-processor speak. */
  function NoSubstitute<B>(): Option<B> -> bool
  {
    (v: Option<B>) => v.None?
  }

  /** Phase 2 as a call on one post-processor. */
  function AfterCall<C, B, P, D>(bean: B, beanName: string)
    : Interceptor<C, B, P, D> -> Result<bool, BeansException>
  {
    p => AfterOf(p, bean, beanName)
  }

  /** A true answer after instantiation lets the next post-processor speak. */
  function KeepPopulating(): bool -> bool
  {
    (v: bool) => v
  }

  /** Phase 1, applied only to definitions with a bean class: the first
      non-null object replaces the bean, and no later post-processor is
      asked. `Ok(None)` means "proceed with default instantiation". */
  function RunBefore<C, B, P, D>(ps: seq<Interceptor<C, B, P, D>>, def: BeanDefinition<C>): (r: Run<Option<B>>)
    requires def.beanClass.Some?
    ensures r.invoked <= |ps|
    ensures forall j :: 0 <= j < r.invoked - 1 ==> BeforeOf(ps[j], def.beanClass.value, def.beanName) == Ok(None)
    ensures r.outcome == Ok(None) <==>
              forall j :: 0 <= j < |ps| ==> BeforeOf(ps[j], def.beanClass.value, def.beanName) == Ok(None)
    ensures r.outcome == Ok(None) ==> r.invoked == |ps|
    ensures r.outcome != Ok(None) ==>
              && 0 < r.invoked
              && r.outcome == Tag(BeforeOf(ps[r.invoked - 1], def.beanClass.value, def.beanName),
                                  BeforeInstantiation, r.invoked - 1)
  {
    RunChainSpec(ps, 0, BeforeCall(def.beanClass.value, def.beanName), NoSubstitute(), None, BeforeInstantiation);
    RunChain(ps, 0, BeforeCall(def.beanClass.value, def.beanName), NoSubstitute(), None, BeforeInstantiation)
  }

  /** Phase 2: the first false answer skips population and stops the
      phase; `Ok(true)` means "populate". */
  function RunAfter<C, B, P, D>(ps: seq<Interceptor<C, B, P, D>>, bean: B, beanName: string): (r: Run<bool>)
    ensures r.invoked <= |ps|
    ensures forall j :: 0 <= j < r.invoked - 1 ==> AfterOf(ps[j], bean, beanName) == Ok(true)
    ensures r.outcome == Ok(true) <==> forall j :: 0 <= j < |ps| ==> AfterOf(ps[j], bean, beanName) == Ok(true)
    ensures r.outcome == Ok(true) ==> r.invoked == |ps|
    ensures r.outcome != Ok(true) ==>
              && 0 < r.invoked
              && r.outcome == Tag(AfterOf(ps[r.invoked - 1], bean, beanName), AfterInstantiation, r.invoked - 1)
  {
    RunChainSpec(ps, 0, AfterCall(bean, beanName), KeepPopulating(), true, AfterInstantiation);
    RunChain(ps, 0, AfterCall(bean, beanName), KeepPopulating(), true, AfterInstantiation)
  }

  // ---------------------------------------------------------------------
  // Phase 3 (with its legacy fallback): rewriting the property values
  // ---------------------------------------------------------------------

  /** The answer of one post-processor in the property phase, and whether
      it fell back to its legacy callback. */
  datatype Step<P> = Step(result: Result<Option<P>, Failure>, fellBack: bool)

  /** One post-processor's visit: the working values it was handed, and
      whether its legacy callback ran. */
  datatype Visit<P> = Visit(input: P, fellBack: bool)

  /** The verdict of the property phase and the visits it made, in order.
      A verdict `Ok(None)` means "skip property population". */
  datatype PropsRun<P> = PropsRun(outcome: Result<Option<P>, Failure>, visits: seq<Visit<P>>)

  /** The answer carries values to go on with. */
  predicate Populates<P>(o: Result<Option<P>, Failure>)
  {
    o.Ok? && o.value.Some?
  }

  /** One post-processor in the property phase. A null from
      postProcessProperties ("no opinion") falls back to the same
      post-processor's postProcessPropertyValues, handed the same values;
      any other answer is final for this post-processor. */
  function PropsStep<C, B, P, D>(p: Interceptor<C, B, P, D>, index: nat, pvs: P, pds: D, bean: B, beanName: string)
    : (s: Step<P>)
    ensures s.fellBack <==> PropertiesOf(p, pvs, bean, beanName) == Ok(None)
    ensures s.fellBack ==>
              s.result == Tag(PropertyValuesOf(p, pvs, pds, bean, beanName), ProcessPropertyValues, index)
    ensures !s.fellBack ==> s.result == Tag(PropertiesOf(p, pvs, bean, beanName), ProcessProperties, index)
  {
    match PropertiesOf(p, pvs, bean, beanName)
    case Ok(None) => Step(Tag(PropertyValuesOf(p, pvs, pds, bean, beanName), ProcessPropertyValues, index), true)
    case other => Step(Tag(other, ProcessProperties, index), false)
  }

  /** Each visited post-processor's answer is exactly the working values
      handed to the next one (visits[i] is the post-processor at from + i). */
  ghost predicate HandsOn<C, B, P, D>(ps: seq<Interceptor<C, B, P, D>>, from: nat, visits: seq<Visit<P>>,
                                      pds: D, bean: B, beanName: string)
    requires from + |visits| <= |ps|
  {
    forall i :: 0 <= i < |visits| - 1 ==>
      PropsStep(ps[from + i], from + i, visits[i].input, pds, bean, beanName).result == Ok(Some(visits[i + 1].input))
  }

  /** The property phase from position `from` on, with working values
      `pvs`. Each post-processor is handed the values the previous one left;
      a null from a legacy callback, or a failure, ends the phase at once
      (whether later post-processors still run after a legacy null is not
      settled by the callback contract; this model assumes they do not).
      PropsFromSpec states what it computes. */
  function PropsFrom<C, B, P, D>(ps: seq<Interceptor<C, B, P, D>>, from: nat, pvs: P, pds: D, bean: B, beanName: string)
    : (r: PropsRun<P>)
    requires from <= |ps|
    ensures |r.visits| <= |ps| - from
    decreases |ps| - from
  {
    if from == |ps| then PropsRun(Ok(Some(pvs)), [])
    else
      var s := PropsStep(ps[from], from, pvs, pds, bean, beanName);
      if Populates(s.result) then
        var rest := PropsFrom(ps, from + 1, s.result.value.value, pds, bean, beanName);
        PropsRun(rest.outcome, [Visit(pvs, s.fellBack)] + rest.visits)
      else
        PropsRun(s.result, [Visit(pvs, s.fellBack)])
  }

  /** The property phase from `from` on visits the post-processors in
      order, each handed what the previous one produced; it stops early only
      on a legacy null or a failure, and its verdict is the last answer. */
  lemma {:induction false} PropsFromSpec<C, B, P, D>(ps: seq<Interceptor<C, B, P, D>>, from: nat, pvs: P, pds: D,
                                                   bean: B, beanName: string)
    requires from <= |ps|
    ensures var r := PropsFrom(ps, from, pvs, pds, bean, beanName);
      && (|r.visits| == 0 <==> from == |ps|)
      && (|r.visits| > 0 ==> r.visits[0].input == pvs)
      && (forall i :: 0 <= i < |r.visits| ==>
            (r.visits[i].fellBack <==> PropertiesOf(ps[from + i], r.visits[i].input, bean, beanName) == Ok(None)))
      && HandsOn(ps, from, r.visits, pds, bean, beanName)
      && (|r.visits| == 0 ==> r.outcome == Ok(Some(pvs)))
      && (|r.visits| > 0 ==>
            r.outcome == PropsStep(ps[from + |r.visits| - 1], from + |r.visits| - 1,
                                   r.visits[|r.visits| - 1].input, pds, bean, beanName).result)
      && (Populates(r.outcome) ==> |r.visits| == |ps| - from)
    decreases |ps| - from
  {
    if from < |ps| {
      var s := PropsStep(ps[from], from, pvs, pds, bean, beanName);
      if Populates(s.result) {
        PropsFromSpec(ps, from + 1, s.result.value.value, pds, bean, beanName);
        var rest := PropsFrom(ps, from + 1, s.result.value.value, pds, bean, beanName);
        var r := PropsFrom(ps, from, pvs, pds, bean, beanName);
        assert r.visits == [Visit(pvs, s.fellBack)] + rest.visits;
        forall i | 0 < i < |r.visits| - 1
          ensures PropsStep(ps[from + i], from + i, r.visits[i].input, pds, bean, beanName).result
                    == Ok(Some(r.visits[i + 1].input))
        {
          assert r.visits[i] == rest.visits[i - 1] && r.visits[i + 1] == rest.visits[i];
        }
      }
    }
  }

  /** Phase 3 over the whole registry: `Ok(Some(q))` hands `q` to the
      container to apply, `Ok(None)` skips population. */
  function RunProps<C, B, P, D>(ps: seq<Interceptor<C, B, P, D>>, pvs: P, pds: D, bean: B, beanName: string)
    : (r: PropsRun<P>)
    ensures |r.visits| <= |ps|
    ensures |ps| > 0 ==> |r.visits| > 0 && r.visits[0].input == pvs
    ensures forall i :: 0 <= i < |r.visits| ==>
              (r.visits[i].fellBack <==> PropertiesOf(ps[i], r.visits[i].input, bean, beanName) == Ok(None))
    ensures HandsOn(ps, 0, r.visits, pds, bean, beanName)
    ensures |ps| == 0 ==> r.outcome == Ok(Some(pvs))
    ensures |r.visits| > 0 ==>
              r.outcome == PropsStep(ps[|r.visits| - 1], |r.visits| - 1, r.visits[|r.visits| - 1].input,
                                     pds, bean, beanName).result
    ensures Populates(r.outcome) ==> |r.visits| == |ps|
  {
    PropsFromSpec(ps, 0, pvs, pds, bean, beanName);
    PropsFrom(ps, 0, pvs, pds, bean, beanName)
  }

  // ---------------------------------------------------------------------
  // One creation, all phases
  // ---------------------------------------------------------------------

  /** How one creation ended.
      - Substituted: a before-instantiation object replaced the bean; the
        only processing still owed by the container is the
        after-initialization callbacks of the outer lifecycle.
      - Instantiated: the container's own instance; `population` holds the
        values to apply, or None when population is skipped.
      - Aborted: a callback failed; nothing is published. */
  datatype Creation<B, P> =
    | Substituted(bean: B)
    | Instantiated(bean: B, population: Option<P>)
    | Aborted(failure: Failure)

  /** A creation together with how many post-processors each phase called
      and the visits of the property phase. */
  datatype Construction<B, P> = Construction(
    creation: Creation<B, P>,
    beforeInvoked: nat,
    afterInvoked: nat,
    visits: seq<Visit<P>>)

  /** Drives one bean creation through the phases. `instantiate` is the
      container's default instantiation; `pvs` the property values the
      container is about to apply (explicit properties together with the
      results of its own autowiring); `pds` the filtered property
      descriptors. Phase 1 runs only
      for definitions with a bean class. */
  function Construct<C, B, P, D>(ps: seq<Interceptor<C, B, P, D>>, def: BeanDefinition<C>,
                                 instantiate: BeanDefinition<C> -> B, pvs: P, pds: D)
    : (c: Construction<B, P>)
    ensures c.beforeInvoked <= |ps| && c.afterInvoked <= |ps| && |c.visits| <= |ps|
    ensures def.beanClass.None? ==> c.beforeInvoked == 0
    // a substitute short-circuits everything after phase 1
    ensures c.creation.Substituted? ==>
              && def.beanClass.Some?
              && RunBefore(ps, def).outcome == Ok(Some(c.creation.bean))
              && c.afterInvoked == 0
              && c.visits == []
    // otherwise the container's own instance is used, and only when every
    // before-instantiation answer was null
    ensures c.creation.Instantiated? ==>
              && c.creation.bean == instantiate(def)
              && (def.beanClass.Some? ==>
                    forall j :: 0 <= j < |ps| ==> BeforeOf(ps[j], def.beanClass.value, def.beanName) == Ok(None))
    // property callbacks run only once every after-instantiation answer was true
    ensures c.visits != [] ==>
              && c.afterInvoked == |ps|
              && forall j :: 0 <= j < |ps| ==> AfterOf(ps[j], instantiate(def), def.beanName) == Ok(true)
    ensures c.creation.Instantiated? && c.creation.population.Some? ==>
              && (forall j :: 0 <= j < |ps| ==> AfterOf(ps[j], instantiate(def), def.beanName) == Ok(true))
              && RunProps(ps, pvs, pds, instantiate(def), def.beanName).outcome == Ok(c.creation.population)
    // population is skipped only by a false after instantiation or a legacy null
    ensures c.creation.Instantiated? && c.creation.population.None? ==>
              || RunAfter(ps, instantiate(def), def.beanName).outcome == Ok(false)
              || RunProps(ps, pvs, pds, instantiate(def), def.beanName).outcome == Ok(None)
    // a failure runs no later phase
    ensures c.creation.Aborted? && c.creation.failure.phase == BeforeInstantiation ==>
              c.afterInvoked == 0 && c.visits == []
    ensures c.creation.Aborted? && c.creation.failure.phase == AfterInstantiation ==> c.visits == []
  {
    var before := if def.beanClass.Some? then RunBefore(ps, def) else Run(Ok(None), 0);
    match before.outcome
    case Err(f) => Construction(Aborted(f), before.invoked, 0, [])
    case Ok(Some(b)) => Construction(Substituted(b), before.invoked, 0, [])
    case Ok(None) =>
      var bean := instantiate(def);
      var after := RunAfter(ps, bean, def.beanName);
      match after.outcome
      case Err(f) => Construction(Aborted(f), before.invoked, after.invoked, [])
      case Ok(false) => Construction(Instantiated(bean, None), before.invoked, after.invoked, [])
      case Ok(true) =>
        var props := RunProps(ps, pvs, pds, bean, def.beanName);
        match props.outcome
        case Err(f) => Construction(Aborted(f), before.invoked, after.invoked, props.visits)
        case Ok(q) => Construction(Instantiated(bean, q), before.invoked, after.invoked, props.visits)
  }
}

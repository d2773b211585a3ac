/** The container's side of the contract, written as the plain loops with
    early exit that a bean factory runs over its registered post-processors.
    Each loop is proved to compute exactly what the corresponding phase of
    the pipeline defines. */
module Container {
  import opened Wrappers
  import opened Interceptors
  import opened Pipeline

  /** Asks each post-processor in turn before instantiation and returns at
      the first non-null object or failure. */
  method ApplyBeforeInstantiation<C, B, P, D>(ps: seq<Interceptor<C, B, P, D>>, def: BeanDefinition<C>)
    returns (outcome: Result<Option<B>, Failure>, invoked: nat)
    requires def.beanClass.Some?
    ensures Run(outcome, invoked) == RunBefore(ps, def)
  {
    var beanClass := def.beanClass.value;
    var i := 0;
    while i < |ps|
      invariant i <= |ps|
      invariant RunChain(ps, i, BeforeCall(beanClass, def.beanName), NoSubstitute(), None, BeforeInstantiation)
                == RunBefore(ps, def)
    {
      match BeforeOf(ps[i], beanClass, def.beanName) {
        case Err(e) =>
          return Err(Failure(BeforeInstantiation, i, e)), i + 1;
        case Ok(Some(b)) =>
          return Ok(Some(b)), i + 1;
        case Ok(None) =>
      }
      i := i + 1;
    }
    return Ok(None), |ps|;
  }

  /** Asks each post-processor in turn after instantiation and returns at
      the first false answer or failure. */
  method ApplyAfterInstantiation<C, B, P, D>(ps: seq<Interceptor<C, B, P, D>>, bean: B, beanName: string)
    returns (outcome: Result<bool, Failure>, invoked: nat)
    ensures Run(outcome, invoked) == RunAfter(ps, bean, beanName)
  {
    var i := 0;
    while i < |ps|
      invariant i <= |ps|
      invariant RunChain(ps, i, AfterCall(bean, beanName), KeepPopulating(), true, AfterInstantiation)
                == RunAfter(ps, bean, beanName)
    {
      match AfterOf(ps[i], bean, beanName) {
        case Err(e) =>
          return Err(Failure(AfterInstantiation, i, e)), i + 1;
        case Ok(false) =>
          return Ok(false), i + 1;
        case Ok(true) =>
      }
      i := i + 1;
    }
    return Ok(true), |ps|;
  }

  /** Runs the property phase: each post-processor is handed the working
      values, falls back to its legacy callback on a null, and either
      replaces the working values or ends the phase. */
  method ApplyPropertyInterception<C, B, P, D>(ps: seq<Interceptor<C, B, P, D>>, pvs: P, pds: D, bean: B, beanName: string)
    returns (outcome: Result<Option<P>, Failure>, visits: seq<Visit<P>>)
    ensures PropsRun(outcome, visits) == RunProps(ps, pvs, pds, bean, beanName)
  {
    var working := pvs;
    visits := [];
    ghost var whole := PropsFrom(ps, 0, pvs, pds, bean, beanName);
    var i := 0;
    while i < |ps|
      invariant i <= |ps|
      invariant var rest := PropsFrom(ps, i, working, pds, bean, beanName);
                whole == PropsRun(rest.outcome, visits + rest.visits)
    {
      PropsAdvance(ps, i, working, pds, bean, beanName, visits);
      var result;
      var toUse := PropertiesOf(ps[i], working, bean, beanName);
      var fellBack := toUse.Ok? && toUse.value.None?;
      if fellBack {
        toUse := PropertyValuesOf(ps[i], working, pds, bean, beanName);
        result := Tag(toUse, ProcessPropertyValues, i);
      } else {
        result := Tag(toUse, ProcessProperties, i);
      }
      visits := visits + [Visit(working, fellBack)];
      if !Populates(result) {
        return result, visits;
      }
      working := result.value.value;
      i := i + 1;
    }
    assert visits + [] == visits;
    return Ok(Some(working)), visits;
  }

  /** One post-processor of the property phase, seen from the loop: after
      the visits in `done`, handing `working` to the post-processor at i either
      ends the phase with its answer or leaves the rest of the phase to run
      from i + 1 with what it returned. */
  lemma PropsAdvance<C, B, P, D>(ps: seq<Interceptor<C, B, P, D>>, i: nat, working: P, pds: D, bean: B,
                                 beanName: string, done: seq<Visit<P>>)
    requires i < |ps|
    ensures var s := PropsStep(ps[i], i, working, pds, bean, beanName);
            var here := PropsFrom(ps, i, working, pds, bean, beanName);
            var visited := done + [Visit(working, s.fellBack)];
            && (!Populates(s.result) ==> PropsRun(here.outcome, done + here.visits) == PropsRun(s.result, visited))
            && (Populates(s.result) ==>
                  var rest := PropsFrom(ps, i + 1, s.result.value.value, pds, bean, beanName);
                  PropsRun(here.outcome, done + here.visits) == PropsRun(rest.outcome, visited + rest.visits))
  {
  }

  /** One creation driven by the three loops, calling the container's
      default instantiation only when no substitute was produced. */
  method CreateBean<C, B, P, D>(ps: seq<Interceptor<C, B, P, D>>, def: BeanDefinition<C>,
                                instantiate: BeanDefinition<C> -> B, pvs: P, pds: D)
    returns (c: Construction<B, P>)
    ensures c == Construct(ps, def, instantiate, pvs, pds)
  {
    var beforeInvoked := 0;
    if def.beanClass.Some? {
      var substitute;
      substitute, beforeInvoked := ApplyBeforeInstantiation(ps, def);
      if substitute.Err? {
        return Construction(Aborted(substitute.error), beforeInvoked, 0, []);
      } else if substitute.value.Some? {
        return Construction(Substituted(substitute.value.value), beforeInvoked, 0, []);
      }
    }
    var bean := instantiate(def);
    var populate, afterInvoked := ApplyAfterInstantiation(ps, bean, def.beanName);
    if populate.Err? {
      return Construction(Aborted(populate.error), beforeInvoked, afterInvoked, []);
    } else if !populate.value {
      return Construction(Instantiated(bean, None), beforeInvoked, afterInvoked, []);
    }
    var toApply, visits := ApplyPropertyInterception(ps, pvs, pds, bean, def.beanName);
    if toApply.Err? {
      return Construction(Aborted(toApply.error), beforeInvoked, afterInvoked, visits);
    }
    return Construction(Instantiated(bean, toApply.value), beforeInvoked, afterInvoked, visits);
  }
}

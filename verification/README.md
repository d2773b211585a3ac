# Instantiation-aware bean post-processing, modelled in Dafny

This project models the construction-interception contract of Spring's
`InstantiationAwareBeanPostProcessor`. A bean factory consults its registered
post-processors, in registration order, at three points of every bean creation:

1. **Before instantiation** (`postProcessBeforeInstantiation`). The first non-null
   object replaces the bean and ends creation. Only the after-initialization callbacks
   of the outer lifecycle remain owed.
2. **After instantiation** (`postProcessAfterInstantiation`). The first `false` skips
   property population. No later post-processor is invoked on that bean.
3. **Property post-processing** (`postProcessProperties`). A `null` means "no
   opinion". The same post-processor's deprecated `postProcessPropertyValues` then
   runs with the same values. A `null` from that legacy callback skips population.
   Any other answer becomes the working values handed to the next post-processor.

Files:

- `wrappers.dfy`: `Option` (a nullable reference) and `Result` (a call that may throw).
- `interceptors.dfy`: a post-processor is a record of four callbacks. Each callback is
  either `Inherit` (the interface default) or `Override` (a total function).
  `BeforeOf`, `AfterOf`, `PropertiesOf` and `PropertyValuesOf` give each callback's
  answer, using the Java defaults for `Inherit`: null, true, null, and the given values.
  The Java types `Class<?>`, `Object`, `PropertyValues` and `PropertyDescriptor[]` stay
  abstract type parameters.
- `pipeline.dfy`: the phases as pure folds over the registry.
  - `RunChain` is the generic "first decisive answer wins" fold. Phases 1 and 2 are
    instances of it.
  - `RunProps` is phase 3 with its per-post-processor fallback.
  - `Construct` runs one whole creation. It records how many post-processors each phase
    invoked and what each property callback was handed; `ConstructionRecordsPhases` ties
    that record to the phases that ran.
- `container.dfy`: the factory's side, written as plain loops with early exit. Each loop
  is proved to compute exactly what the matching fold defines.
- `guarantees.dfy`: the contract's rules, proved for every registry.
- `scenarios.dfy`: small concrete registries.

A callback that throws `BeansException` returns `Err`. The failure aborts the creation
and no later phase runs. The exception is carried unchanged, tagged with the phase and
the position of the post-processor that raised it.

## Model

| member | source | states |
|---|---|---|
| Pipeline.RunChainSpec | spring-beans/src/main/java/org/springframework/beans/factory/config/InstantiationAwareBeanPostProcessor.java:72-116 | Post-processors are asked in order until one answer does not proceed. The verdict is that answer, and nobody after it is asked. If every answer proceeds, the verdict is the neutral one and all were asked. |
| Pipeline.RunBefore | spring-beans/src/main/java/org/springframework/beans/factory/config/InstantiationAwareBeanPostProcessor.java:72-89 | Phase 1 yields no substitute iff every post-processor returned null; then all were invoked. Otherwise the verdict is the first non-null object (or failure), and exactly the post-processors up to it were invoked. Requires a definition with a bean class. |
| Pipeline.RunAfter | spring-beans/src/main/java/org/springframework/beans/factory/config/InstantiationAwareBeanPostProcessor.java:109-122 | Phase 2 populates iff every post-processor returned true. Otherwise the first false (or failure) is the verdict, and exactly the post-processors up to it were invoked. |
| Guarantees.LegacyConsultedOnlyOnNull | spring-beans/src/main/java/org/springframework/beans/factory/config/InstantiationAwareBeanPostProcessor.java:138-141 | When postProcessProperties answers anything but null, the post-processor does not fall back, and replacing its legacy callback with any other changes nothing. |
| Guarantees.NullDefersToLegacy | spring-beans/src/main/java/org/springframework/beans/factory/config/InstantiationAwareBeanPostProcessor.java:130-140 | When postProcessProperties answers null, the post-processor falls back, and it behaves exactly as one that inherits postProcessProperties: its legacy callback decides on the same values. |
| Guarantees.DefaultStepPassesValuesOn | spring-beans/src/main/java/org/springframework/beans/factory/config/InstantiationAwareBeanPostProcessor.java:146-180 | A post-processor that keeps both property defaults falls back once and passes the values on as-is. |
| Pipeline.PropsFromSpec | spring-beans/src/main/java/org/springframework/beans/factory/config/InstantiationAwareBeanPostProcessor.java:157-168 | Phase 3 visits post-processors in order. Each is handed what the previous one returned. It stops early only on a legacy null or a failure, and its verdict is the last answer. |
| Pipeline.RunProps | spring-beans/src/main/java/org/springframework/beans/factory/config/InstantiationAwareBeanPostProcessor.java:128-168 | Over the whole registry: the first post-processor gets the input values; fallback happens per post-processor; values are chained; an empty registry returns the input; a populating verdict means every post-processor was visited. |
| Pipeline.Construct | spring-beans/src/main/java/org/springframework/beans/factory/config/InstantiationAwareBeanPostProcessor.java:72-122 | A substitute means no after-instantiation or property callback ran. A creation that is not substituted and not aborted uses the container's own instance. Property callbacks run only after every after-instantiation answer was true. Population is skipped only by a false or a legacy null. A failure runs no later phase. |
| Container.ApplyBeforeInstantiation | spring-beans/src/main/java/org/springframework/beans/factory/config/InstantiationAwareBeanPostProcessor.java:72-89 | The loop that returns at the first non-null object or failure equals phase 1 (verdict and invocation count). |
| Container.ApplyAfterInstantiation | spring-beans/src/main/java/org/springframework/beans/factory/config/InstantiationAwareBeanPostProcessor.java:111-116 | The loop that returns at the first false or failure equals phase 2. |
| Container.ApplyPropertyInterception | spring-beans/src/main/java/org/springframework/beans/factory/config/InstantiationAwareBeanPostProcessor.java:157-168 | The loop that chains the working values and returns at a legacy null or failure equals phase 3, visits included. |
| Container.CreateBean | spring-beans/src/main/java/org/springframework/beans/factory/config/InstantiationAwareBeanPostProcessor.java:75-78 | Driving the three loops, with default instantiation only when there is no substitute, equals the whole creation. |
| Guarantees.ChainPrefix | spring-beans/src/main/java/org/springframework/beans/factory/config/InstantiationAwareBeanPostProcessor.java:113-114 | A short-circuiting phase over a registry equals the phase over its first k post-processors. If that phase stopped, nothing after it matters; otherwise the phase continues at k. |
| Guarantees.DefaultBeforeChainProceeds | spring-beans/src/main/java/org/springframework/beans/factory/config/InstantiationAwareBeanPostProcessor.java:84-97 | With only default before-instantiation callbacks, or none, there is no substitute and every post-processor is asked. |
| Guarantees.SubstitutionShortCircuits | spring-beans/src/main/java/org/springframework/beans/factory/config/InstantiationAwareBeanPostProcessor.java:72-78 | If the first non-null object comes from position k, it is the bean. Exactly k+1 post-processors were asked, and no after-instantiation or property callback ran. |
| Guarantees.BeforeIgnoresLaterInterceptors | spring-beans/src/main/java/org/springframework/beans/factory/config/InstantiationAwareBeanPostProcessor.java:75-76 | Once phase 1 has a substitute or failure, post-processors appended to the registry change nothing. |
| Guarantees.DefaultAfterChainProceeds | spring-beans/src/main/java/org/springframework/beans/factory/config/InstantiationAwareBeanPostProcessor.java:120-122 | With only default after-instantiation callbacks, or none, population goes ahead and every post-processor is asked. |
| Guarantees.FalseStopsChain | spring-beans/src/main/java/org/springframework/beans/factory/config/InstantiationAwareBeanPostProcessor.java:111-116 | A false at position k, after only trues, skips population. Exactly k+1 post-processors are invoked. |
| Guarantees.AfterIgnoresLaterInterceptors | spring-beans/src/main/java/org/springframework/beans/factory/config/InstantiationAwareBeanPostProcessor.java:113-114 | Once phase 2 has said false or failed, post-processors appended to the registry change nothing. |
| Guarantees.PropsPrefix | spring-beans/src/main/java/org/springframework/beans/factory/config/InstantiationAwareBeanPostProcessor.java:138-139 | Phase 3 over a registry equals phase 3 over its first k post-processors, continued at k with the values they left (unless they ended it). Each post-processor sees the values the previous one left. |
| Guarantees.FallbackIsPerInterceptor | spring-beans/src/main/java/org/springframework/beans/factory/config/InstantiationAwareBeanPostProcessor.java:138-141 | A post-processor's legacy callback runs exactly when its own postProcessProperties said null. It receives the same values, and its answer is what the next post-processor sees, or the verdict if it was the last one. Without a fallback, the postProcessProperties answer plays the same role. |
| Guarantees.LegacyNullSkipsPopulation | spring-beans/src/main/java/org/springframework/beans/factory/config/InstantiationAwareBeanPostProcessor.java:167-168 | A legacy null at position k, reached with the working values, skips population. Exactly k+1 post-processors are visited, whatever later ones would answer. |
| Guarantees.PropsIgnoreLaterInterceptors | spring-beans/src/main/java/org/springframework/beans/factory/config/InstantiationAwareBeanPostProcessor.java:167-168 | Once phase 3 has ended early, post-processors appended to the registry change nothing. |
| Guarantees.DefaultPropsFrom | spring-beans/src/main/java/org/springframework/beans/factory/config/InstantiationAwareBeanPostProcessor.java:146-150 | From any position, post-processors that keep both property defaults each fall back once and pass the values on unchanged. |
| Guarantees.DefaultPropsChainKeepsValues | spring-beans/src/main/java/org/springframework/beans/factory/config/InstantiationAwareBeanPostProcessor.java:176-179 | A registry that keeps both property defaults hands back exactly the input values, and every post-processor falls back once. |
| Guarantees.DefaultChainConstructsPlainly | spring-beans/src/main/java/org/springframework/beans/factory/config/InstantiationAwareBeanPostProcessor.java:94-122 | With only default post-processors, the creation is the container's own path untouched: its own instance, populated with exactly the property values the container was about to apply, and every post-processor asked. |
| Guarantees.CreationFollowsPhases | spring-beans/src/main/java/org/springframework/beans/factory/config/InstantiationAwareBeanPostProcessor.java:86-169 | A failure in any phase that runs aborts the creation with that failure, carrying the callback's exception. A creation whose callbacks all succeed ends substituted (first non-null object) or instantiated: unpopulated after a false, otherwise with the property phase's verdict. |
| Guarantees.ConstructionRecordsPhases | spring-beans/src/main/java/org/springframework/beans/factory/config/InstantiationAwareBeanPostProcessor.java:72-169 | The record of a creation reports exactly the post-processors each phase invoked: phase 1's count always; phase 2's count only when phase 1 found no substitute (so after a false at position k it is k+1); phase 3's visits only when every after-instantiation answer was true. A phase that did not run reports no invocation and no visit. |
| Scenarios.ProxyScenario | spring-beans/src/main/java/org/springframework/beans/factory/config/InstantiationAwareBeanPostProcessor.java:72-78 | For [default, proxy-returning], the proxy is the bean, and neither phase 2 nor phase 3 runs. |
| Scenarios.SkipScenario | spring-beans/src/main/java/org/springframework/beans/factory/config/InstantiationAwareBeanPostProcessor.java:111-116 | For [true, false, true], population is skipped and the third post-processor is never invoked. |
| Scenarios.VetoScenario | spring-beans/src/main/java/org/springframework/beans/factory/config/InstantiationAwareBeanPostProcessor.java:167-168 | For a post-processor with no property opinion and a legacy null, population is suppressed. |
| Scenarios.RewriteScenario | spring-beans/src/main/java/org/springframework/beans/factory/config/InstantiationAwareBeanPostProcessor.java:157-159 | When two post-processors each add an entry, the second is handed the first one's result, and the verdict holds both entries. |

The interface's doc comment at line 39 says `postProcessPropertyValues` runs after
injection. The English contract at lines 153-155 says it runs before the values are
applied. The model follows the English contract.

The contract does not say whether later post-processors still run after a legacy
`null` (line 168). It only says population is skipped. The model assumes the phase
halts immediately, as it does after a `false` in phase 2.

## Left out

- Type prediction through `SmartInstantiationAwareBeanPostProcessor` (lines 81-83): that interface is not part of this model.
- The outer lifecycle, such as `postProcessAfterInitialization` and init callbacks: a `Substituted` creation only records that the after-initialization callbacks are still owed.
- Deciding whether a definition has a bean class (lines 79-80, 92): this belongs to the container. It appears only as the optional `beanClass` of a `BeanDefinition`. `RunBefore` requires it, and `Construct` skips phase 1 without it.
- The registry itself (registration, ordering policy, concurrent iteration): it is container state with no code in this interface. The model takes the registry as an ordered `seq`.
- Container failures from default instantiation or from applying the values: `instantiate` is a total function parameter, and applying the values is left to the caller.
- How the property descriptors are computed and filtered (lines 163-164): `pds` is an opaque parameter.
- The advice at lines 130-131 that an implementation should return null exactly when it customises `postProcessPropertyValues`: this is guidance to implementers, not behaviour, so the model does not enforce it.
- Reflection and the contents of `Class`, `PropertyValues`, `MutablePropertyValues` and `PropertyDescriptor`: these are foreign types, kept as type parameters.
- Callback side effects: callbacks are pure total functions. Changes a callback makes to the bean instance are not modelled, such as the custom field injection invited at lines 105-106. Nor is in-place mutation of the passed-in property values (lines 138-139, 157-159, 167). So an answer cannot depend on what an earlier callback did to the bean or to the values. In particular, a postProcessProperties that changes the values and then returns null is not modelled: the legacy callback is handed the values as they were before that call.
- How the container builds the property values (explicit properties plus its own autowiring, line 104): `pvs` is taken as given, standing for the values the container is about to apply.

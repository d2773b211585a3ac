/** The callback contract of an instantiation-aware bean post-processor.

    An implementing class either overrides each of the four callbacks or
    inherits the interface's default. The foreign Java types are kept
    abstract as type parameters:
      C  the bean class (`Class<?>`)
      B  a bean object (`Object`)
      P  the property values (`PropertyValues`, never null on input)
      D  the filtered property descriptors (`PropertyDescriptor[]`) */
module Interceptors {
  import opened Wrappers

  /** The one checked failure a callback may raise; the message stands for
      the exception object, which the model never inspects. */
  datatype BeansException = BeansException(message: string)

  /** The four phases of the contract, in the order a creation visits them. */
  datatype Phase =
    | BeforeInstantiation    // postProcessBeforeInstantiation
    | AfterInstantiation     // postProcessAfterInstantiation
    | ProcessProperties      // postProcessProperties
    | ProcessPropertyValues  // postProcessPropertyValues (deprecated)

  /** A callback that the implementing class either inherits from the
      interface or overrides with its own total body. */
  datatype Hook<F> = Inherit | Override(body: F)

  datatype Interceptor<!C, !B, !P, !D> = Interceptor(
    beforeInstantiation: Hook<(C, string) -> Result<Option<B>, BeansException>>,
    afterInstantiation: Hook<(B, string) -> Result<bool, BeansException>>,
    properties: Hook<(P, B, string) -> Result<Option<P>, BeansException>>,
    propertyValues: Hook<(P, D, B, string) -> Result<Option<P>, BeansException>>)
  {
    /** Overrides none of the four callbacks. */
    predicate IsDefault() {
      && beforeInstantiation.Inherit?
      && afterInstantiation.Inherit?
      && properties.Inherit?
      && propertyValues.Inherit?
    }
  }

  /** A post-processor that keeps every default. */
  function Default<C, B, P, D>(): Interceptor<C, B, P, D> {
    Interceptor(Inherit, Inherit, Inherit, Inherit)
  }

  /** postProcessBeforeInstantiation: the default returns null, i.e. proceed
      with default instantiation. */
  function BeforeOf<C, B, P, D>(p: Interceptor<C, B, P, D>, beanClass: C, beanName: string)
    : Result<Option<B>, BeansException>
  {
    match p.beforeInstantiation
    case Inherit => Ok(None)
    case Override(f) => f(beanClass, beanName)
  }

  /** postProcessAfterInstantiation: the default returns true, i.e. populate. */
  function AfterOf<C, B, P, D>(p: Interceptor<C, B, P, D>, bean: B, beanName: string)
    : Result<bool, BeansException>
  {
    match p.afterInstantiation
    case Inherit => Ok(true)
    case Override(f) => f(bean, beanName)
  }

  /** postProcessProperties: the default returns null, the "no opinion"
      answer that hands over to postProcessPropertyValues. */
  function PropertiesOf<C, B, P, D>(p: Interceptor<C, B, P, D>, pvs: P, bean: B, beanName: string)
    : Result<Option<P>, BeansException>
  {
    match p.properties
    case Inherit => Ok(None)
    case Override(f) => f(pvs, bean, beanName)
  }

  /** postProcessPropertyValues: the default returns the given values as-is;
      a null answer skips property population. */
  function PropertyValuesOf<C, B, P, D>(p: Interceptor<C, B, P, D>, pvs: P, pds: D, bean: B, beanName: string)
    : Result<Option<P>, BeansException>
  {
    match p.propertyValues
    case Inherit => Ok(Some(pvs))
    case Override(f) => f(pvs, pds, bean, beanName)
  }
}

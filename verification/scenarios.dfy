/** Concrete registries, with beans and classes as strings and property
    values as maps from property name to value. */
module Scenarios {
  import opened Wrappers
  import opened Interceptors
  import opened Pipeline

  type Values = map<string, string>
  type Processor = Interceptor<string, string, Values, seq<string>>

  const definition: BeanDefinition<string> := BeanDefinition("service", Some("com.example.Service"))

  function PlainInstance(def: BeanDefinition<string>): string { "plain" }

  /** Returns a proxy before instantiation. */
  function Proxying(): Processor {
    Interceptor(Override((c: string, n: string) => Ok(Some("PROXY"))), Inherit, Inherit, Inherit)
  }

  /** Answers the given flag after instantiation. */
  function Answering(populate: bool): Processor {
    Interceptor(Inherit, Override((b: string, n: string) => Ok(populate)), Inherit, Inherit)
  }

  /** Keeps no opinion on properties, and its legacy callback says null. */
  function Vetoing(): Processor {
    Interceptor(Inherit, Inherit, Inherit, Override((v: Values, d: seq<string>, b: string, n: string) => Ok(None)))
  }

  /** Adds an entry to the property values it is handed. */
  function Adding(key: string, value: string): Processor {
    Interceptor(Inherit, Inherit, Override((v: Values, b: string, n: string) => Ok(Some(v[key := value]))), Inherit)
  }

  /** A default post-processor then a proxying one: the proxy is the bean,
      and neither phase 2 nor phase 3 runs. */
  lemma ProxyScenario()
    ensures Construct([Default(), Proxying()], definition, PlainInstance, map[], [])
              == Construction(Substituted("PROXY"), 2, 0, [])
  {
  }

  /** true, false, true after instantiation: population is skipped and the
      third post-processor is never invoked. */
  lemma SkipScenario()
    ensures Construct([Answering(true), Answering(false), Answering(true)], definition, PlainInstance, map[], [])
              == Construction(Instantiated("plain", None), 3, 2, [])
  {
  }

  /** No opinion on properties and a legacy null: population is suppressed. */
  lemma VetoScenario()
    ensures Construct([Vetoing()], definition, PlainInstance, map["name" := "x"], [])
              == Construction(Instantiated("plain", None), 1, 1, [Visit(map["name" := "x"], true)])
  {
  }

  /** The second post-processor is handed the values the first one
      rewrote, not the original ones. */
  lemma RewriteScenario()
    ensures RunProps([Adding("a", "1"), Adding("b", "2")], map[], [], "plain", "service")
              == PropsRun(Ok(Some(map["a" := "1", "b" := "2"])),
                          [Visit(map[], false), Visit(map["a" := "1"], false)])
  {
  }
}

# ConfigurationPropertiesRebinder, modelled in Dafny

This project models the bookkeeping of Spring Cloud Context's
`ConfigurationPropertiesRebinder`. That is the listener that, on an
`EnvironmentChangeEvent`, destroys and re-initialises every bean bound to
configuration properties. It records the last failure per bean name.

The rebinder's state is:

- the managed bean names, in the iteration order of the set that
  `ConfigurationPropertiesBeans` hands out;
- the application context, absent until the container sets it;
- the mutable error map from bean name to the last failure.

The bean factory calls made for one bean are foreign code. These are
`getBean`, the AOP proxy unwrapping, `destroyBean` and `initializeBean`.
The model abstracts them as a per-name `Lifecycle` outcome, supplied as a
function `lifecycle: string -> Lifecycle`:

- `Rebound`: the bean was destroyed and re-initialised;
- `NullBean`: the bean resolved to null;
- `Throws(e)`: one of the calls threw `e`.

A thrown `Throwable` is a runtime exception (caught by the first `catch`
block), a checked exception (caught by the second), or a throwable that is
not an `Exception` at all, such as a `java.lang.Error` (modelled as
`Error`), which neither block catches. The error map holds only exceptions.

Two files:

- `rebind_spec.dfy`, module `RebindSpec`: value-level datatypes; the
  functions `RebindStep` (one `rebind(name)`), `RebindEach` and `RebindAll`
  (the `rebind()` sweep), `FirstFailure` (an independent reference for
  where the sweep stops), `Triggers` (the event test); and the lemmas that
  characterise the sweep.
- `rebinder.dfy`, module `ContextProperties`: `ErrorMap`, the mutable map
  object, and the class `ConfigurationPropertiesRebinder`. Its methods are
  written the way the Java is. The `ensures` of `RebindBean`, `Rebind` and
  `OnApplicationEvent` tie the returned value or exception, the new error
  map, and the lifecycle calls made to the `RebindSpec` functions;
  `SetApplicationContext`, `GetErrors` and `GetBeanNames` state their
  results directly.

The class has a ghost field `lifecycleCalls`: the names whose lifecycle
calls were attempted, in order. It makes "this name was not attempted"
something a contract can state.

A failure for one name is not isolated. `rebind(name)` rethrows it (lines
106-113 of `ConfigurationPropertiesRebinder.java`). The throw leaves the
loop of `rebind()` (lines 83-85), and later names are never attempted. As a
result, after `rebind()` the error map holds at most one entry
(`RebindAllOutcomes`).

## Model

| member | source | states |
|---|---|---|
| `RebindSpec.Thrown` | spring-cloud-context/src/main/java/org/springframework/cloud/context/properties/ConfigurationPropertiesRebinder.java:106-113 | what `rebind(name)` throws is never a checked `Exception`: a runtime exception or a non-`Exception` throwable as it is, a checked exception wrapped in an IllegalStateException whose cause is the failure |
| `RebindSpec.Recorded` | spring-cloud-context/src/main/java/org/springframework/cloud/context/properties/ConfigurationPropertiesRebinder.java:106-113 | after a throw, an exception is recorded under the name and a non-`Exception` throwable is not; no other entry changes |
| `RebindSpec.RebindStep` | spring-cloud-context/src/main/java/org/springframework/cloud/context/properties/ConfigurationPropertiesRebinder.java:90-116 | lifecycle calls happen iff the name is managed and a context is attached; the result is `true` iff they rebound the bean; it throws iff they threw, and throws `Thrown` of the failure; a caught exception is recorded under the name, overwriting an earlier one; after a return or an error the map is unchanged; no other entry changes and no entry is removed |
| `RebindSpec.FirstFailure` | spring-cloud-context/src/main/java/org/springframework/cloud/context/properties/ConfigurationPropertiesRebinder.java:83-85 | the index of the first name whose lifecycle calls throw (or the length): every earlier name does not throw, and the one at the index does |
| `RebindSpec.RebindEachAt` | spring-cloud-context/src/main/java/org/springframework/cloud/context/properties/ConfigurationPropertiesRebinder.java:83-85 | one turn of the loop, after the names already attempted: the sweep from position i is the step for name i, and then the rest of the sweep unless that step threw; the names attempted so far stay ahead of every later attempt |
| `RebindSpec.RebindEachSpec` | spring-cloud-context/src/main/java/org/springframework/cloud/context/properties/ConfigurationPropertiesRebinder.java:83-113 | with no context the sweep attempts nothing and returns; otherwise it attempts the names in order up to and including the first failing one; it throws `Thrown` of that failure and leaves the map `Recorded` with it; with no failure it attempts every name and returns with the map unchanged |
| `RebindSpec.RebindAllOutcomes` | spring-cloud-context/src/main/java/org/springframework/cloud/context/properties/ConfigurationPropertiesRebinder.java:81-86 | `rebind()` either returns with an empty error map, or throws `Thrown` of the last attempted name's lifecycle failure and leaves at most one entry: exactly that failure under that name when it is an exception, none when it is an error |
| `RebindSpec.RebindAllStopsAtFirstFailure` | spring-cloud-context/src/main/java/org/springframework/cloud/context/properties/ConfigurationPropertiesRebinder.java:83-85 | the names attempted by `rebind()` are a prefix of the names in iteration order; all but the last succeeded; it throws iff the last failed; a normal return with a context means every name was attempted; with no context nothing happens and the map ends empty |
| `ContextProperties.ErrorMap.constructor` | spring-cloud-context/src/main/java/org/springframework/cloud/context/properties/ConfigurationPropertiesRebinder.java:59 | the error map starts empty |
| `ContextProperties.ErrorMap.Clear` | spring-cloud-context/src/main/java/org/springframework/cloud/context/properties/ConfigurationPropertiesRebinder.java:82 | clearing leaves the map empty |
| `ContextProperties.ErrorMap.Put` | spring-cloud-context/src/main/java/org/springframework/cloud/context/properties/ConfigurationPropertiesRebinder.java:107 | `put` maps the name to the failure and keeps every other entry |
| `ContextProperties.ConfigurationPropertiesRebinder.constructor` | spring-cloud-context/src/main/java/org/springframework/cloud/context/properties/ConfigurationPropertiesRebinder.java:55-64 | a new rebinder holds the given bean names, which come from a set and so do not repeat, no context and a fresh, empty error map |
| `ContextProperties.ConfigurationPropertiesRebinder.SetApplicationContext` | spring-cloud-context/src/main/java/org/springframework/cloud/context/properties/ConfigurationPropertiesRebinder.java:66-70 | the attached context becomes the given one, and nothing else changes |
| `ContextProperties.ConfigurationPropertiesRebinder.GetErrors` | spring-cloud-context/src/main/java/org/springframework/cloud/context/properties/ConfigurationPropertiesRebinder.java:76-78 | returns the rebinder's own error map object, not a copy, so changes made through it are the rebinder's |
| `ContextProperties.ConfigurationPropertiesRebinder.GetBeanNames` | spring-cloud-context/src/main/java/org/springframework/cloud/context/properties/ConfigurationPropertiesRebinder.java:118-121 | returns a set value holding exactly the managed names; it changes nothing, and a set value cannot be used to change the rebinder |
| `ContextProperties.ConfigurationPropertiesRebinder.RebindBean` | spring-cloud-context/src/main/java/org/springframework/cloud/context/properties/ConfigurationPropertiesRebinder.java:89-116 | `rebind(name)` returns or throws what `RebindStep` gives; the error map becomes `RebindStep`'s; the name is logged as attempted exactly when `RebindStep` attempts it |
| `ContextProperties.ConfigurationPropertiesRebinder.Rebind` | spring-cloud-context/src/main/java/org/springframework/cloud/context/properties/ConfigurationPropertiesRebinder.java:80-86 | `rebind()` returns or throws what `RebindAll` gives; it leaves `RebindAll`'s error map; it appends exactly `RebindAll`'s attempted names to the log |
| `ContextProperties.ConfigurationPropertiesRebinder.OnApplicationEvent` | spring-cloud-context/src/main/java/org/springframework/cloud/context/properties/ConfigurationPropertiesRebinder.java:126-133 | when the event's source is the attached context, or is its own key set, the handler does exactly what `rebind()` does; otherwise it returns and changes neither the error map nor the log |

## Left out

- `LoadBalancerAutoConfiguration` is not part of this model. It is dependency-injection configuration: conditional bean factory methods and customizers that append an interceptor to a template's list.
- The bean factory calls are not modelled. These are `getBean`, `AopUtils.isAopProxy`, `ProxyUtils.getTargetObject`, `destroyBean` and `initializeBean`. Their combined effect per name is the `Lifecycle` outcome. It is a fixed function during one call, so effects of one bean's rebinding on another bean are not captured.
- `ConfigurationPropertiesBeans` is not part of this model. The rebinder is given its names as a fixed sequence, in the set's iteration order. Beans registered with it later are not modelled.
- Thread-safety of the `ConcurrentHashMap` is not modelled. Every operation runs alone and in sequence.
- JMX exposure (`@ManagedResource`, `@ManagedOperation`, `@ManagedAttribute`) is not modelled.
- The message text of the IllegalStateException is not modelled. Only its cause is.
- `ContextProperties.ConfigurationPropertiesRebinder.OnApplicationEvent`: requires an attached context. With none, the Java throws a NullPointerException when it calls `equals` on the null context. That crash is not modelled.
- Object identity of contexts and event sources is modelled as equality of an identifier. Sources that are neither a context nor a key set are reduced to an opaque identifier.

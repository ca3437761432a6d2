/**
 * ConfigurationPropertiesRebinder as an object: its error map is a mutable
 * map object that the rebinder clears and updates in place and hands out
 * by reference, its application context is set by the container, and
 * each operation is proved against the value-level functions of RebindSpec.
 */
module ContextProperties {
  import opened RebindSpec

  /** The mutable map from bean name to the last failure. */
  class ErrorMap {
    var entries: map<string, Exception>

    constructor ()
      ensures entries == map[]
    {
      entries := map[];
    }

    method Clear()
      modifies this
      ensures entries == map[]
    {
      entries := map[];
    }

    method Put(name: string, failure: Exception)
      modifies this
      ensures entries == old(entries)[name := failure]
    {
      entries := entries[name := failure];
    }
  }

  class ConfigurationPropertiesRebinder {
    /** The names of the beans bound to configuration properties, in the
        iteration order of the managed set. */
    const beanNames: seq<string>
    var applicationContext: Option<Context>
    const errors: ErrorMap
    /** The names for which the bean lifecycle calls were made, in order. */
    ghost var lifecycleCalls: seq<string>

    constructor (beanNames: seq<string>)
      // the names come from a set, so none repeats
      requires forall i, j :: 0 <= i < j < |beanNames| ==> beanNames[i] != beanNames[j]
      ensures this.beanNames == beanNames
      ensures applicationContext == None
      ensures fresh(errors) && errors.entries == map[]
      ensures lifecycleCalls == []
    {
      this.beanNames := beanNames;
      applicationContext := None;
      errors := new ErrorMap();
      lifecycleCalls := [];
    }

    /** Called by the container; `None` stands for a null context. */
    method SetApplicationContext(context: Option<Context>)
      modifies this`applicationContext
      ensures applicationContext == context
    {
      applicationContext := context;
    }

    /** The live error map itself, not a copy: a caller that changes it
        changes the rebinder's errors. */
    method GetErrors() returns (m: ErrorMap)
      ensures m == errors
    {
      m := errors;
    }

    /** The managed names as a new set value, which no caller can use to
        change the rebinder. */
    method GetBeanNames() returns (names: set<string>)
      ensures forall n :: n in names <==> n in beanNames
    {
      names := Managed(beanNames);
    }

    /** `rebind(name)`: destroy and re-initialise one managed bean. */
    method RebindBean(name: string, lifecycle: string -> Lifecycle) returns (r: Result<bool>)
      modifies errors, this`lifecycleCalls
      ensures var s := RebindStep(Managed(beanNames), applicationContext.Some?, lifecycle(name),
                                  old(errors.entries), name);
              && r == s.result
              && errors.entries == s.errors
              && lifecycleCalls == old(lifecycleCalls) + (if s.attempted then [name] else [])
    {
      if name !in beanNames {
        return Ok(false);
      }
      if applicationContext.Some? {
        lifecycleCalls := lifecycleCalls + [name];
        match lifecycle(name)
        case Rebound =>
          return Ok(true);
        case NullBean =>
        case Throws(e) =>
          if !IsException(e) {
            // an Error passes both catch blocks unrecorded
            return Err(e);
          }
          errors.Put(name, e);
          if IsRuntime(e) {
            return Err(e);
          }
          return Err(IllegalState(e));
      }
      return Ok(false);
    }

    /** `rebind()`: clear the errors, then rebind every managed bean in
        order, leaving at the first failure. */
    method Rebind(lifecycle: string -> Lifecycle) returns (r: Result<()>)
      modifies errors, this`lifecycleCalls
      ensures var run := RebindAll(beanNames, applicationContext.Some?, lifecycle);
              && r == run.result
              && errors.entries == run.errors
              && lifecycleCalls == old(lifecycleCalls) + run.lifecycleCalls
    {
      errors.Clear();
      ghost var managed := Managed(beanNames);
      ghost var attached := applicationContext.Some?;
      ghost var start := lifecycleCalls;
      ghost var done: seq<string> := [];
      var i := 0;
      while i < |beanNames|
        invariant 0 <= i <= |beanNames|
        invariant lifecycleCalls == start + done
        invariant var rest := RebindEach(beanNames[i..], managed, attached, lifecycle, errors.entries);
                  RebindAll(beanNames, attached, lifecycle)
                    == Run(rest.result, rest.errors, done + rest.lifecycleCalls)
      {
        ghost var before := errors.entries;
        ghost var s := RebindStep(managed, attached, lifecycle(beanNames[i]), before, beanNames[i]);
        ghost var tried := if s.attempted then [beanNames[i]] else [];
        var result := RebindBean(beanNames[i], lifecycle);
        RebindEachAt(beanNames, i, managed, attached, lifecycle, before, done);
        assert lifecycleCalls == start + (done + tried);
        if result.Err? {
          return Err(result.thrown);
        }
        done := done + tried;
        i := i + 1;
      }
      return Ok(());
    }

    /** `onApplicationEvent`: rebind everything when the event belongs to
        the attached context; ignore it otherwise. */
    method OnApplicationEvent(event: EnvironmentChangeEvent, lifecycle: string -> Lifecycle)
      returns (r: Result<()>)
      requires applicationContext.Some?
      modifies errors, this`lifecycleCalls
      ensures Triggers(applicationContext.value, event) ==>
                var run := RebindAll(beanNames, true, lifecycle);
                && r == run.result
                && errors.entries == run.errors
                && lifecycleCalls == old(lifecycleCalls) + run.lifecycleCalls
      ensures !Triggers(applicationContext.value, event) ==>
                && r == Ok(())
                && errors.entries == old(errors.entries)
                && lifecycleCalls == old(lifecycleCalls)
    {
      if event.source == ContextSource(applicationContext.value)
         || event.source == KeySetSource(event.keys) {
        r := Rebind(lifecycle);
      } else {
        r := Ok(());
      }
    }
  }
}

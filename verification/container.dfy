/** The dependency-injection container: a table of service definitions and a cache of
    singleton instances. Registration replaces a definition; resolution builds a service
    from its dependencies, resolved first and in order, and caches it when it is a
    singleton. The container itself has no cycle detection, so resolution is defined here
    only for definitions that a rank orders (every dependency ranks below its dependent). */
module Container {
  import opened Wrappers
  import opened Js
  import opened Errors

  /** A function handed to `singleton` or `transient`. Ordinary functions and classes carry
      a `prototype`; arrow functions do not. `throws` is what calling it does: build a new
      object (`None`), or throw the given error. `ObjectConstructor` is JavaScript's
      `Object`, the `constructor` every plain object inherits, which never throws. */
  datatype Callable = Callable(id: nat, hasPrototype: bool, throws: Option<Error>) | ObjectConstructor

  predicate HasPrototype(c: Callable) {
    c.ObjectConstructor? || c.hasPrototype
  }

  /** What `resolve` hands out: a value registered with `instance`, or an object built by a
      factory or constructor from the resolved dependencies. `serial` is the object's
      identity: every construction yields a new one. */
  datatype Obj = Given(value: Value) | Built(maker: Callable, args: seq<Obj>, serial: nat)

  /** A `ServiceDefinition` (`ctor` is its `constructor`); an absent `instance` is
      `Given(Undefined)`. */
  datatype Definition = Definition(
    factory: Option<Callable>,
    ctor: Option<Callable>,
    dependencies: Option<seq<string>>,
    singleton: bool,
    instance: Obj)

  /** `if (definition.instance)`: a built object, or a truthy registered value. */
  predicate Present(o: Obj) {
    o.Built? || Truthy(o.value)
  }

  /** `if (definition.factory) ... else if (definition.constructor)`: what builds the
      service. */
  function Maker(d: Definition): Callable
    requires d.factory.Some? || d.ctor.Some?
  {
    if d.factory.Some? then d.factory.value else d.ctor.value
  }

  predicate Throws(c: Callable) {
    c.Callable? && c.throws.Some?
  }

  /** `definition.dependencies || []`. */
  function Deps(d: Definition): seq<string> {
    d.dependencies.GetOr([])
  }

  /** The container: its definitions, its singleton cache, and the identity the next
      construction will receive. */
  datatype State = State(services: map<string, Definition>, instances: map<string, Obj>, next: nat)

  const Empty := State(map[], map[], 0)

  /** The two errors `resolve` throws itself, and an error thrown by a factory or
      constructor, which passes through `resolve` uncaught. */
  datatype ContainerError = NotRegistered(name: string) | NoFactoryOrConstructor(name: string) | Thrown(error: Error) {
    function Message(): string {
      match this
      case NotRegistered(n) => "Service '" + n + "' is not registered"
      case NoFactoryOrConstructor(n) => "Service '" + n + "' has no factory or constructor"
      case Thrown(e) => e.message
    }
  }

  /** `register(name, definition)`: the new definition replaces any earlier one. The cache
      is left alone. */
  function Register(s: State, name: string, d: Definition): (t: State)
    ensures t.services.Keys == s.services.Keys + {name} && t.services[name] == d
    ensures forall k :: k in s.services && k != name ==> t.services[k] == s.services[k]
    ensures t.instances == s.instances && t.next == s.next
  {
    s.(services := s.services[name := d])
  }

  /** The definition `singleton` and `transient` register: a callable with a prototype as
      the constructor, one without as the factory. */
  function Describe(c: Callable, deps: seq<string>, singleton: bool): (d: Definition)
    ensures (d.factory.Some? || d.ctor.Some?) && Maker(d) == c
    ensures d.factory.Some? <==> !HasPrototype(c)
    ensures d.ctor.Some? <==> HasPrototype(c)
    ensures Deps(d) == deps && d.singleton == singleton && !Present(d.instance)
  {
    Definition(
      if HasPrototype(c) then None else Some(c),
      if HasPrototype(c) then Some(c) else None,
      Some(deps), singleton, Given(Undefined))
  }

  /** `singleton(name, constructorOrFactory, dependencies)`. */
  function Singleton(s: State, name: string, c: Callable, deps: seq<string>): (t: State)
    ensures t.services.Keys == s.services.Keys + {name} && t.services[name].singleton
    ensures (t.services[name].factory.Some? || t.services[name].ctor.Some?) && Maker(t.services[name]) == c && Deps(t.services[name]) == deps && !Present(t.services[name].instance)
    ensures forall k :: k in s.services && k != name ==> t.services[k] == s.services[k]
    ensures t.instances == s.instances && t.next == s.next
  {
    Register(s, name, Describe(c, deps, true))
  }

  /** `transient(name, constructorOrFactory, dependencies)`. */
  function Transient(s: State, name: string, c: Callable, deps: seq<string>): (t: State)
    ensures t.services.Keys == s.services.Keys + {name} && !t.services[name].singleton
    ensures (t.services[name].factory.Some? || t.services[name].ctor.Some?) && Maker(t.services[name]) == c && Deps(t.services[name]) == deps && !Present(t.services[name].instance)
    ensures forall k :: k in s.services && k != name ==> t.services[k] == s.services[k]
    ensures t.instances == s.instances && t.next == s.next
  {
    Register(s, name, Describe(c, deps, false))
  }

  /** `instance(name, value)`: a singleton definition holding the value itself. The object
      literal it stores has no `constructor` of its own, so reading one yields the inherited
      `Object`. */
  function Instance(s: State, name: string, v: Value): (t: State)
    ensures t.services.Keys == s.services.Keys + {name}
    ensures t.services[name].singleton && t.services[name].instance == Given(v)
    ensures Present(t.services[name].instance) <==> Truthy(v)
    ensures Deps(t.services[name]) == [] && t.services[name].factory.None? && t.services[name].ctor == Some(ObjectConstructor)
    ensures forall k :: k in s.services && k != name ==> t.services[k] == s.services[k]
    ensures t.instances == s.instances && t.next == s.next
  {
    Register(s, name, Definition(None, Some(ObjectConstructor), None, true, Given(v)))
  }

  function Has(s: State, name: string): bool {
    name in s.services
  }

  /** `clear()`: no definitions and no cached instances. */
  function Clear(s: State): (t: State)
    ensures forall name :: !Has(t, name)
    ensures t.instances == map[]
  {
    State(map[], map[], s.next)
  }

  /** Registered names are exactly those `has` reports. */
  lemma HasAfterRegister(s: State, name: string, d: Definition, k: string)
    ensures Has(Register(s, name, d), k) <==> k == name || Has(s, k)
  {
  }

  /** Every dependency listed in `deps` that is registered ranks below `bound`. */
  predicate Below(services: map<string, Definition>, rank: map<string, nat>, deps: seq<string>, bound: nat) {
    forall i :: 0 <= i < |deps| && deps[i] in services ==> deps[i] in rank && rank[deps[i]] < bound
  }

  /** A rank orders the definitions: every registered dependency ranks below its dependent,
      so the dependency graph has no cycle. */
  predicate Ranked(services: map<string, Definition>, rank: map<string, nat>) {
    forall n :: n in services ==> n in rank && Below(services, rank, Deps(services[n]), rank[n])
  }

  /** A definition that holds an instance, or whose factory or constructor does not throw. */
  predicate Buildable(d: Definition) {
    Present(d.instance) || ((d.factory.Some? || d.ctor.Some?) && !Throws(Maker(d)))
  }

  /** Every definition can be built and every dependency it lists is registered. */
  predicate Complete(services: map<string, Definition>) {
    forall n :: n in services ==>
      && Buildable(services[n])
      && forall i :: 0 <= i < |Deps(services[n])| ==> Deps(services[n])[i] in services
  }

  /** The container after a resolution: the same definitions, no identity reused, and every
      cached instance kept. */
  predicate Grows(s: State, t: State) {
    && t.services == s.services
    && s.next <= t.next
    && forall k :: k in s.instances ==> k in t.instances && t.instances[k] == s.instances[k]
  }

  function Height(services: map<string, Definition>, rank: map<string, nat>, name: string): nat {
    if name in services && name in rank then rank[name] + 1 else 0
  }

  /** A result of `resolve` together with the container it leaves behind; a thrown error
      keeps what was cached before it. */
  datatype Outcome<T> = Outcome(result: Result<T, ContainerError>, state: State)

  /** `resolve(name)`. */
  function Resolve(s: State, name: string, rank: map<string, nat>): (r: Outcome<Obj>)
    requires Ranked(s.services, rank)
    ensures Grows(s, r.state)
    ensures name !in s.services ==> r == Outcome(Err(NotRegistered(name)), s)
    ensures Complete(s.services) && name in s.services ==> r.result.Ok?
    ensures r.result.Ok? && name in s.services && s.services[name].singleton && !Present(s.services[name].instance)
            ==> name in r.state.instances && r.state.instances[name] == r.result.value
    ensures r.result.Ok? && name in s.services && !s.services[name].singleton && !Present(s.services[name].instance)
            ==> r.result.value.Built? && s.next <= r.result.value.serial < r.state.next
    ensures forall k :: k in r.state.instances && k !in s.instances ==>
              k == name || (name in rank && k in rank && rank[k] < rank[name])
    decreases Height(s.services, rank, name), 1, 0
  {
    if name !in s.services then Outcome(Err(NotRegistered(name)), s)
    else
      var d := s.services[name];
      if d.singleton && name in s.instances then Outcome(Ok(s.instances[name]), s)
      else if Present(d.instance) then Outcome(Ok(d.instance), s)
      else
        var deps := ResolveAll(s, Deps(d), rank, rank[name]);
        if deps.result.Err? then Outcome(Err(deps.result.error), deps.state)
        else if d.factory.None? && d.ctor.None? then
          Outcome(Err(NoFactoryOrConstructor(name)), deps.state)
        else if Throws(Maker(d)) then Outcome(Err(Thrown(Maker(d).throws.value)), deps.state)
        else
          var o := Built(Maker(d), deps.result.value, deps.state.next);
          var t := deps.state.(next := deps.state.next + 1);
          Outcome(Ok(o), if d.singleton then t.(instances := t.instances[name := o]) else t)
  }

  /** `(definition.dependencies || []).map(dep => this.resolve(dep))`: each dependency in
      turn, stopping at the first that throws. */
  function ResolveAll(s: State, deps: seq<string>, rank: map<string, nat>, level: nat): (r: Outcome<seq<Obj>>)
    requires Ranked(s.services, rank) && Below(s.services, rank, deps, level)
    ensures Grows(s, r.state)
    ensures r.result.Ok? ==> |r.result.value| == |deps|
    ensures Complete(s.services) && (forall i :: 0 <= i < |deps| ==> deps[i] in s.services) ==> r.result.Ok?
    ensures forall k :: k in r.state.instances && k !in s.instances ==> k in rank && rank[k] < level
    decreases level + 1, 0, |deps|
  {
    if |deps| == 0 then Outcome(Ok([]), s)
    else
      var first := Resolve(s, deps[0], rank);
      if first.result.Err? then Outcome(Err(first.result.error), first.state)
      else
        assert Below(s.services, rank, deps[1..], level) by {
          assert forall i :: 0 <= i < |deps[1..]| ==> deps[1..][i] == deps[i + 1];
        }
        var rest := ResolveAll(first.state, deps[1..], rank, level);
        if rest.result.Err? then Outcome(Err(rest.result.error), rest.state)
        else Outcome(Ok([first.result.value] + rest.result.value), rest.state)
  }

  /** The message of an unregistered service names the service, so two such messages are
      equal only for the same name. */
  lemma NotRegisteredMessageInjective(a: string, b: string)
    requires NotRegistered(a).Message() == NotRegistered(b).Message()
    ensures a == b
  {
    var m, n := NotRegistered(a).Message(), NotRegistered(b).Message();
    assert m[9..|m| - 19] == a;
    assert n[9..|n| - 19] == b;
  }

  /** After `clear()` every name is unregistered again. */
  lemma ResolveCleared(s: State, name: string, rank: map<string, nat>)
    ensures Resolve(Clear(s), name, rank) == Outcome(Err(NotRegistered(name)), Clear(s))
  {
  }

  /** A singleton is built once: resolving it again returns the identical object and
      changes nothing, so its factory does not run again. */
  lemma SingletonOnce(s: State, name: string, rank: map<string, nat>)
    requires Ranked(s.services, rank) && name in s.services
    requires s.services[name].singleton && !Present(s.services[name].instance)
    requires Resolve(s, name, rank).result.Ok?
    ensures var r := Resolve(s, name, rank);
      Resolve(r.state, name, rank) == r
  {
  }

  /** A transient service is rebuilt on every resolution: two resolutions in a row yield
      two different objects. */
  lemma TransientFresh(s: State, name: string, rank: map<string, nat>)
    requires Ranked(s.services, rank) && name in s.services
    requires !s.services[name].singleton && !Present(s.services[name].instance)
    requires Resolve(s, name, rank).result.Ok?
    requires Resolve(Resolve(s, name, rank).state, name, rank).result.Ok?
    ensures Resolve(Resolve(s, name, rank).state, name, rank).result.value != Resolve(s, name, rank).result.value
  {
    var r1 := Resolve(s, name, rank);
    var r2 := Resolve(r1.state, name, rank);
    assert r1.result.value.serial < r1.state.next <= r2.result.value.serial;
  }

  /** A truthy value registered with `instance` is handed out as it is, and nothing is
      built or cached. */
  lemma InstanceAsIs(s: State, name: string, v: Value, rank: map<string, nat>)
    requires Truthy(v) && name !in s.instances
    requires Ranked(Instance(s, name, v).services, rank)
    ensures Resolve(Instance(s, name, v), name, rank) == Outcome(Ok(Given(v)), Instance(s, name, v))
  {
  }

  /** A falsy value registered with `instance` (`0`, `""`, `null`, ...) fails the truthiness
      test, and resolution falls through to the inherited `Object` constructor: the name
      resolves to a new empty object, which is then cached in place of the value. */
  lemma FalsyInstanceBuildsObject(s: State, name: string, v: Value, rank: map<string, nat>)
    requires !Truthy(v) && name !in s.instances
    requires Ranked(Instance(s, name, v).services, rank)
    ensures var t := Instance(s, name, v);
      var o := Built(ObjectConstructor, [], s.next);
      Resolve(t, name, rank) == Outcome(Ok(o), t.(next := s.next + 1, instances := s.instances[name := o]))
  {
    var t := Instance(s, name, v);
    assert Deps(t.services[name]) == [];
    assert ResolveAll(t, [], rank, rank[name]) == Outcome(Ok([]), t);
  }

  /** Registering a name again does not evict its cached singleton: a new singleton
      definition still resolves to the instance built for the old one. */
  lemma CacheSurvivesReregistration(s: State, name: string, c: Callable, deps: seq<string>, rank: map<string, nat>)
    requires name in s.instances
    requires Ranked(Singleton(s, name, c, deps).services, rank)
    ensures Resolve(Singleton(s, name, c, deps), name, rank) == Outcome(Ok(s.instances[name]), Singleton(s, name, c, deps))
  {
  }

  /** Whether registered as a constructor or as a factory, the callable handed to
      `singleton` or `transient` is what builds the service. */
  lemma BuiltBy(s: State, name: string, c: Callable, deps: seq<string>, singleton: bool, rank: map<string, nat>)
    requires name !in s.instances
    requires Ranked(Register(s, name, Describe(c, deps, singleton)).services, rank)
    requires Resolve(Register(s, name, Describe(c, deps, singleton)), name, rank).result.Ok?
    ensures Resolve(Register(s, name, Describe(c, deps, singleton)), name, rank).result.value.Built?
    ensures Resolve(Register(s, name, Describe(c, deps, singleton)), name, rank).result.value.maker == c
  {
  }

  /** Dependencies that are all cached singletons are passed in the order listed, each as
      its cached instance, and nothing changes. */
  lemma {:induction false} CachedDeps(s: State, deps: seq<string>, rank: map<string, nat>, level: nat)
    requires Ranked(s.services, rank) && Below(s.services, rank, deps, level)
    requires forall i :: 0 <= i < |deps| ==> deps[i] in s.services && s.services[deps[i]].singleton && deps[i] in s.instances
    ensures ResolveAll(s, deps, rank, level).state == s
    ensures ResolveAll(s, deps, rank, level).result.Ok?
    ensures var args := ResolveAll(s, deps, rank, level).result.value;
      |args| == |deps| && forall i :: 0 <= i < |deps| ==> args[i] == s.instances[deps[i]]
    decreases |deps|
  {
    if |deps| > 0 {
      assert Below(s.services, rank, deps[1..], level) by {
        assert forall i :: 0 <= i < |deps[1..]| ==> deps[1..][i] == deps[i + 1];
      }
      CachedDeps(s, deps[1..], rank, level);
      assert Resolve(s, deps[0], rank) == Outcome(Ok(s.instances[deps[0]]), s);
    }
  }

  /** Resolving a service with a single dependency passes that dependency's resolution as
      the only argument. */
  lemma SingleDependency(s: State, name: string, dep: string, rank: map<string, nat>)
    requires Ranked(s.services, rank) && Complete(s.services)
    requires name in s.services && Deps(s.services[name]) == [dep]
    requires !(s.services[name].singleton && name in s.instances) && !Present(s.services[name].instance)
    ensures var r := Resolve(s, name, rank); var d := Resolve(s, dep, rank);
      r.result.Ok? && d.result.Ok? && r.result.value.Built? && r.result.value.args == [d.result.value]
      && Grows(d.state, r.state)
  {
    var d := Resolve(s, dep, rank);
    assert Deps(s.services[name])[0] == dep;
    assert d.result.Ok?;
    assert [dep][1..] == [];
    var all := ResolveAll(s, [dep], rank, rank[name]);
    var rest := ResolveAll(d.state, [dep][1..], rank, rank[name]);
    assert rest == Outcome(Ok([]), d.state);
    assert all == Outcome(Ok([d.result.value] + rest.result.value), rest.state);
    assert [d.result.value] + rest.result.value == [d.result.value];
  }

  /** Two services that depend on the same singleton, resolved one after the other, receive
      the identical instance of it. */
  lemma SharedDependency(s: State, a: string, b: string, dep: string, rank: map<string, nat>)
    requires Ranked(s.services, rank) && Complete(s.services)
    requires a in s.services && b in s.services && a != b && a !in s.instances && b !in s.instances
    requires a in rank && b in rank && rank[a] <= rank[b]
    requires Deps(s.services[a]) == [dep] && Deps(s.services[b]) == [dep]
    requires !Present(s.services[a].instance) && !Present(s.services[b].instance)
    requires dep in s.services && s.services[dep].singleton && !Present(s.services[dep].instance)
    ensures var r1 := Resolve(s, a, rank); var r2 := Resolve(r1.state, b, rank);
      && r1.result.Ok? && r2.result.Ok? && r1.result.value.Built? && r2.result.value.Built?
      && r1.result.value.args == r2.result.value.args
  {
    var r1 := Resolve(s, a, rank);
    SingleDependency(s, a, dep, rank);
    var o := Resolve(s, dep, rank).result.value;
    assert dep in r1.state.instances && r1.state.instances[dep] == o;
    assert b !in r1.state.instances;
    SingleDependency(r1.state, b, dep, rank);
    assert Resolve(r1.state, dep, rank).result.value == o;
  }
  /** A factory or constructor that throws, called once the dependencies are resolved, makes
      the resolution throw that very error, and the name is not cached. */
  lemma MakerThrows(s: State, name: string, rank: map<string, nat>)
    requires Ranked(s.services, rank) && name in s.services
    requires !(s.services[name].singleton && name in s.instances) && !Present(s.services[name].instance)
    requires s.services[name].factory.Some? || s.services[name].ctor.Some?
    requires Throws(Maker(s.services[name]))
    requires ResolveAll(s, Deps(s.services[name]), rank, rank[name]).result.Ok?
    ensures Resolve(s, name, rank).result == Err(Thrown(Maker(s.services[name]).throws.value))
    ensures Resolve(s, name, rank).state == ResolveAll(s, Deps(s.services[name]), rank, rank[name]).state
  {
  }

  /** When the first dependency throws, the service throws the same error without being
      built. */
  lemma FirstDependencyThrows(s: State, name: string, rank: map<string, nat>)
    requires Ranked(s.services, rank) && name in s.services
    requires !(s.services[name].singleton && name in s.instances) && !Present(s.services[name].instance)
    requires |Deps(s.services[name])| > 0 && Resolve(s, Deps(s.services[name])[0], rank).result.Err?
    ensures Resolve(s, name, rank).result == Resolve(s, Deps(s.services[name])[0], rank).result
  {
  }
}

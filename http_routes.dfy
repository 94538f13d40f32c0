/**
 * The Fastify route-module registrar: it walks the route modules in order,
 * skips every module that is not a well-formed HTTP module, and registers
 * each remaining plugin under its own prefix.
 */
module HttpRoutes {
  import opened Wrappers

  /** The identity of a route plugin (a `FastifyPluginAsync` value). */
  type Plugin = nat

  /** An `HttpRouteModule` as it may arrive at run time: any field may be missing. */
  datatype HttpRouteModule = HttpRouteModule(moduleType: Option<string>, prefix: Option<string>, plugin: Option<Plugin>)

  /** One `app.register(plugin, { prefix })` call. */
  datatype Registration = Registration(plugin: Plugin, prefix: string)

  /** The two `continue` guards passed: type `'http'`, a truthy prefix and a plugin. */
  predicate IsRegistrable(m: HttpRouteModule) {
    && m.moduleType == Some("http")
    && m.prefix.Some? && m.prefix.value != ""
    && m.plugin.Some?
  }

  function AsRegistration(m: HttpRouteModule): Registration
    requires IsRegistrable(m)
  {
    Registration(m.plugin.value, m.prefix.value)
  }

  /** The registrations a list of modules makes, in order. */
  function Registrations(modules: seq<HttpRouteModule>): (r: seq<Registration>)
    ensures |r| <= |modules|
  {
    if modules == [] then []
    else
      var last := modules[|modules| - 1];
      Registrations(modules[..|modules| - 1]) + (if IsRegistrable(last) then [AsRegistration(last)] else [])
  }

  /** The Fastify instance, reduced to the log of its `register` calls. */
  class FastifyApp {
    var registered: seq<Registration>

    constructor ()
      ensures registered == []
    {
      registered := [];
    }

    /** `app.register(plugin, { prefix })` */
    method Register(plugin: Plugin, prefix: string)
      modifies this
      ensures registered == old(registered) + [Registration(plugin, prefix)]
    {
      registered := registered + [Registration(plugin, prefix)];
    }
  }

  /** `registerHttpRouteModules(app, httpRouteModules)` */
  method RegisterHttpRouteModules(app: FastifyApp, httpRouteModules: seq<HttpRouteModule>)
    modifies app
    ensures app.registered == old(app.registered) + Registrations(httpRouteModules)
  {
    for i := 0 to |httpRouteModules|
      invariant app.registered == old(app.registered) + Registrations(httpRouteModules[..i])
    {
      assert httpRouteModules[..i + 1][..i] == httpRouteModules[..i];
      var m := httpRouteModules[i];
      if !m.moduleType.Some? || m.moduleType.value != "http" {
        continue;
      }
      if !m.prefix.Some? || m.prefix.value == "" || !m.plugin.Some? {
        continue;
      }
      app.Register(m.plugin.value, m.prefix.value);
    }
    assert httpRouteModules[..|httpRouteModules|] == httpRouteModules;
  }

  // ---------------------------------------------------------------------------
  // Properties of the registrations

  /** Registering two lists one after the other is registering their concatenation. */
  lemma {:induction false} RegistrationsAppend(a: seq<HttpRouteModule>, b: seq<HttpRouteModule>)
    ensures Registrations(a + b) == Registrations(a) + Registrations(b)
    decreases |b|
  {
    if b == [] {
      assert a + b == a;
    } else {
      var b' := b[..|b| - 1];
      assert (a + b)[..|a + b| - 1] == a + b';
      RegistrationsAppend(a, b');
    }
  }

  /** A module that fails either guard adds nothing. */
  lemma SkippedModuleAddsNothing(modules: seq<HttpRouteModule>, m: HttpRouteModule)
    requires !IsRegistrable(m)
    ensures Registrations(modules + [m]) == Registrations(modules)
  {
    assert (modules + [m])[..|modules|] == modules;
  }

  /**
   * The registrable module at index `i` is registered at position
   * `|Registrations(modules[..i])|`, the number of registrable modules
   * before it; so registrable modules appear in input order.
   */
  lemma RegistrationPosition(modules: seq<HttpRouteModule>, i: nat)
    requires i < |modules| && IsRegistrable(modules[i])
    ensures |Registrations(modules[..i])| < |Registrations(modules)|
    ensures Registrations(modules)[|Registrations(modules[..i])|] == AsRegistration(modules[i])
    ensures Registrations(modules)[|Registrations(modules[..i])|].prefix == modules[i].prefix.value
  {
    assert modules == modules[..i] + [modules[i]] + modules[i + 1..];
    RegistrationsAppend(modules[..i] + [modules[i]], modules[i + 1..]);
    assert (modules[..i] + [modules[i]])[..i] == modules[..i];
  }

  /** Every registration comes from a registrable module: the one with exactly `k` registrable modules before it. */
  lemma {:induction false} RegistrationOrigin(modules: seq<HttpRouteModule>, k: nat)
    requires k < |Registrations(modules)|
    ensures exists i :: 0 <= i < |modules| && IsRegistrable(modules[i])
                        && |Registrations(modules[..i])| == k && Registrations(modules)[k] == AsRegistration(modules[i])
    decreases |modules|
  {
    var n := |modules| - 1;
    var init := modules[..n];
    if k < |Registrations(init)| {
      RegistrationOrigin(init, k);
      var i :| 0 <= i < |init| && IsRegistrable(init[i]) && |Registrations(init[..i])| == k
               && Registrations(init)[k] == AsRegistration(init[i]);
      assert init[..i] == modules[..i];
    } else {
      assert modules[..n] == init;
    }
  }

  /** The count of registrations before an index never decreases, and grows exactly at registrable modules. */
  lemma RegistrationCountStep(modules: seq<HttpRouteModule>, i: nat)
    requires i < |modules|
    ensures |Registrations(modules[..i + 1])| == |Registrations(modules[..i])| + (if IsRegistrable(modules[i]) then 1 else 0)
  {
    assert modules[..i + 1][..i] == modules[..i];
  }

  /** Registrable modules at distinct indices are registered at distinct positions: none is registered twice. */
  lemma {:induction false} RegisteredOnce(modules: seq<HttpRouteModule>, i: nat, j: nat)
    requires i < j < |modules| && IsRegistrable(modules[i])
    ensures |Registrations(modules[..i])| < |Registrations(modules[..j])|
    decreases j - i
  {
    RegistrationCountStep(modules, i);
    if i + 1 < j {
      CountMonotone(modules, i + 1, j);
    }
  }

  lemma {:induction false} CountMonotone(modules: seq<HttpRouteModule>, i: nat, j: nat)
    requires i <= j <= |modules|
    ensures |Registrations(modules[..i])| <= |Registrations(modules[..j])|
    decreases j - i
  {
    if i < j {
      RegistrationCountStep(modules, j - 1);
      CountMonotone(modules, i, j - 1);
    }
  }

  /** The example of three modules: only the two well-formed HTTP modules are mounted. */
  lemma ThreeModuleExample(a: Plugin, b: Plugin, c: Plugin)
    ensures Registrations([HttpRouteModule(Some("http"), Some("/a"), Some(a)),
                           HttpRouteModule(Some("ws"), Some("/b"), Some(b)),
                           HttpRouteModule(Some("http"), Some("/c"), Some(c))])
         == [Registration(a, "/a"), Registration(c, "/c")]
  {
    var ms := [HttpRouteModule(Some("http"), Some("/a"), Some(a)),
               HttpRouteModule(Some("ws"), Some("/b"), Some(b)),
               HttpRouteModule(Some("http"), Some("/c"), Some(c))];
    assert ms[..1][..0] == [];
    assert Registrations(ms[..1]) == [Registration(a, "/a")];
    assert ms[..2][..1] == ms[..1];
    assert Registrations(ms[..2]) == [Registration(a, "/a")];
    assert ms[..2] == ms[..|ms| - 1];
  }

  /** An empty prefix or a missing type is skipped just like a wrong type. */
  lemma FalsyFieldsSkipped(p: Plugin, prefix: string)
    ensures Registrations([HttpRouteModule(Some("http"), Some(""), Some(p))]) == []
    ensures Registrations([HttpRouteModule(None, Some(prefix), Some(p))]) == []
    ensures Registrations([HttpRouteModule(Some("http"), Some(prefix), None)]) == []
  {
  }
}

/**
 * The provider registry (providers/registry.py): a name-keyed map that
 * `register` updates in place. Dafny maps are values, so the copy `all`
 * hands out cannot alias the registry's own map.
 */
module Registry {
  import opened Json
  import opened Providers

  class ProviderRegistry {
    var providers: map<string, ProviderView>

    /** Every stored provider sits under its own name. */
    ghost predicate Valid()
      reads this
    {
      forall n :: n in providers ==> providers[n].name == n
    }

    constructor ()
      ensures providers == map[]
      ensures Valid()
    {
      providers := map[];
    }

    /** `self._providers[provider.name] = provider`: replaces an earlier entry of that name, keeps the others. */
    method Register(p: ProviderView)
      requires Valid()
      modifies this
      ensures providers == old(providers)[p.name := p]
      ensures Valid()
      ensures p.name in providers && providers[p.name] == p
      ensures forall n :: n != p.name ==> (n in providers <==> n in old(providers))
      ensures forall n :: n != p.name && n in providers ==> providers[n] == old(providers)[n]
    {
      providers := providers[p.name := p];
    }

    /** `self._providers.get(name)`. */
    function Get(name: string): (r: Option<ProviderView>)
      reads this
      ensures r.Some? <==> name in providers
      ensures r.Some? ==> r.value == providers[name]
    {
      if name in providers then Some(providers[name]) else None
    }

    /** `dict(self._providers)`: a copy equal to the current map. */
    method All() returns (copy: map<string, ProviderView>)
      ensures copy == providers
    {
      copy := providers;
    }
  }

  /** Registering into a fresh registry and reading back. */
  method RegisterThenGet(p: ProviderView, q: ProviderView) returns (first: Option<ProviderView>, second: Option<ProviderView>)
    requires p.name != q.name
    ensures first == Some(p) && second == Some(q)
  {
    var r := new ProviderRegistry();
    r.Register(p);
    r.Register(q);
    first := r.Get(p.name);
    second := r.Get(q.name);
  }

  /** A second registration under the same name wins, and the map keeps one entry. */
  method ReRegisterReplaces(p: ProviderView, q: ProviderView) returns (got: Option<ProviderView>, size: nat)
    requires p.name == q.name
    ensures got == Some(q) && size == 1
  {
    var r := new ProviderRegistry();
    r.Register(p);
    r.Register(q);
    got := r.Get(p.name);
    var all := r.All();
    assert all.Keys == {p.name};
    size := |all|;
  }
}

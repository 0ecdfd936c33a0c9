/** The extensions registry helpers (src/extensions/resolveSource.ts). The registry fetch
    is network I/O: its response body, or its failure, is an input. A JSON object
    `Record<string, RegistryEntry>` is a sequence of named items in `Object.entries` order. */
module ResolveSource {
  import opened Wrappers

  /** An entry of the registry's `mods` object. */
  datatype RegistryEntry = RegistryEntry(publisher: string)

  /** One `[name, entry]` pair of a registry object. */
  datatype RegistryItem = RegistryItem(name: string, entry: RegistryEntry)

  type Registry = seq<RegistryItem>

  /** The response's `featured` object. */
  datatype FeaturedLists = FeaturedLists(discover: Option<seq<string>>)

  /** The body of the `/extensions.json` response. */
  datatype RegistryBody = RegistryBody(mods: Option<Registry>, featured: Option<FeaturedLists>)

  /** The registry request failed. */
  datatype FetchError = FetchError(message: string)

  const FallbackPublishers: seq<string> := ["firebase"]

  /** The names of a registry object. */
  function Names(r: Registry): set<string>
  {
    set k | 0 <= k < |r| :: r[k].name
  }

  /** A JavaScript object has each key once. */
  predicate UniqueNames(r: Registry)
  {
    forall i, j :: 0 <= i < j < |r| ==> r[i].name != r[j].name
  }

  /** `res.body.mods || {}`. */
  function Mods(body: RegistryBody): Registry
  {
    body.mods.GetOr([])
  }

  /** `new Set(res.body.featured?.discover || [])`. */
  function FeaturedNames(body: RegistryBody): set<string>
  {
    var discover := if body.featured.Some? then body.featured.value.discover.GetOr([]) else [];
    set k | 0 <= k < |discover| :: discover[k]
  }

  /** The items of `r` whose name is featured, in their order. */
  function FeaturedOnly(r: Registry, featured: set<string>): (f: Registry)
    ensures forall it :: it in f <==> it in r && it.name in featured
    ensures Names(f) == Names(r) * featured
    decreases |r|
  {
    if |r| == 0 then []
    else
      var init := FeaturedOnly(r[..|r| - 1], featured);
      var last := r[|r| - 1];
      assert r == r[..|r| - 1] + [last];
      assert Names(r) == Names(r[..|r| - 1]) + {last.name} by {
        forall n | n in Names(r) ensures n in Names(r[..|r| - 1]) + {last.name} {
          var k :| 0 <= k < |r| && r[k].name == n;
          if k < |r| - 1 { assert r[..|r| - 1][k] == r[k]; }
        }
      }
      if last.name in featured then
        assert Names(init + [last]) == Names(init) + {last.name} by {
          forall n | n in Names(init + [last]) ensures n in Names(init) + {last.name} {
            var k :| 0 <= k < |init + [last]| && (init + [last])[k].name == n;
            if k < |init| { assert (init + [last])[k] == init[k]; }
          }
          forall n | n in Names(init) ensures n in Names(init + [last]) {
            var k :| 0 <= k < |init| && init[k].name == n;
            assert (init + [last])[k] == init[k];
          }
          assert (init + [last])[|init|] == last;
        }
        init + [last]
      else init
  }

  /** `getExtensionRegistry(onlyFeatured)` applied to the fetched body. */
  method GetExtensionRegistry(body: RegistryBody, onlyFeatured: bool) returns (r: Registry)
    ensures body.mods.None? ==> r == []
    ensures !onlyFeatured ==> r == Mods(body)
    ensures onlyFeatured ==> r == FeaturedOnly(Mods(body), FeaturedNames(body))
    ensures onlyFeatured ==> Names(r) == Names(Mods(body)) * FeaturedNames(body)
    ensures onlyFeatured ==> forall it :: it in r <==> it in Mods(body) && it.name in FeaturedNames(body)
  {
    var extensions := Mods(body);
    if !onlyFeatured {
      return extensions;
    }
    var featuredList := FeaturedNames(body);
    var filtered: Registry := [];
    for i := 0 to |extensions|
      invariant filtered == FeaturedOnly(extensions[..i], featuredList)
    {
      assert extensions[..i + 1][..i] == extensions[..i];
      if extensions[i].name in featuredList {
        filtered := filtered + [extensions[i]];
      }
    }
    assert extensions[..|extensions|] == extensions;
    r := filtered;
  }

  /** Filtering keeps each name at most once when the registry does. */
  lemma {:induction false} FeaturedOnlyKeepsNamesUnique(r: Registry, featured: set<string>)
    requires UniqueNames(r)
    ensures UniqueNames(FeaturedOnly(r, featured))
    decreases |r|
  {
    if |r| > 0 {
      var init := r[..|r| - 1];
      FeaturedOnlyKeepsNamesUnique(init, featured);
      var f := FeaturedOnly(init, featured);
      var last := r[|r| - 1];
      forall k | 0 <= k < |f| ensures f[k].name != last.name {
        assert f[k] in init;
      }
    }
  }

  /** Every `publisher` of a registry, in entry order. */
  function Publishers(r: Registry): seq<string>
  {
    seq(|r|, k requires 0 <= k < |r| => r[k].entry.publisher)
  }

  predicate NoDuplicates(s: seq<string>)
  {
    forall i, j :: 0 <= i < j < |s| ==> s[i] != s[j]
  }

  /** `Array.from(new Set(s))`: each value once, in the order of its first occurrence. */
  function Dedup(s: seq<string>): (d: seq<string>)
    ensures NoDuplicates(d)
    ensures forall x :: x in d <==> x in s
    decreases |s|
  {
    if |s| == 0 then []
    else
      var init := Dedup(s[..|s| - 1]);
      assert s == s[..|s| - 1] + [s[|s| - 1]];
      if s[|s| - 1] in init then init else init + [s[|s| - 1]]
  }

  /** `getTrustedPublishers()`: every publisher of the registry once, or ["firebase"] when the
      registry cannot be fetched. */
  method TrustedPublishers(fetched: Result<RegistryBody, FetchError>) returns (ids: seq<string>)
    ensures fetched.Failure? ==> ids == FallbackPublishers
    ensures fetched.Success? ==> ids == Dedup(Publishers(Mods(fetched.value)))
    ensures fetched.Success? ==> NoDuplicates(ids)
    ensures fetched.Success? ==> forall p :: p in ids <==> exists it :: it in Mods(fetched.value) && it.entry.publisher == p
    ensures fetched.Success? && Mods(fetched.value) == [] ==> ids == []
  {
    if fetched.Failure? {
      return FallbackPublishers;
    }
    var registry := GetExtensionRegistry(fetched.value, false);
    var publisherIds: seq<string> := [];
    for i := 0 to |registry|
      invariant publisherIds == Dedup(Publishers(registry)[..i])
    {
      assert Publishers(registry)[..i + 1][..i] == Publishers(registry)[..i];
      if registry[i].entry.publisher !in publisherIds {
        publisherIds := publisherIds + [registry[i].entry.publisher];
      }
    }
    assert Publishers(registry)[..|registry|] == Publishers(registry);
    ids := publisherIds;
    forall p | p in ids ensures exists it :: it in registry && it.entry.publisher == p {
      var k :| 0 <= k < |registry| && Publishers(registry)[k] == p;
      assert registry[k] in registry;
    }
    forall it | it in registry ensures it.entry.publisher in ids {
      var k :| 0 <= k < |registry| && registry[k] == it;
      assert Publishers(registry)[k] == it.entry.publisher;
    }
  }
}

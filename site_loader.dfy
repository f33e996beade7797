/** `SiteLoader`: discovery of the site plugins on the classpath, cached until cleared.
    The `ServiceLoader` becomes a `Provider` object whose enumerations are given by a
    function of how many enumerations came before, and the `Consumer<SiteDescriptor>`
    becomes a `Reporter` object that logs every descriptor it receives. */
module SiteLoading {
  import opened Wrappers
  import opened SiteDescriptors
  import opened Sites

  /** `ServiceLoader<Site>`: the n-th `spliterator()` yields `enumerate(n)`, a listing the
      model leaves free. A real service loader yields the instances it has cached from
      earlier iterations until it is reloaded; a free listing covers that behaviour and
      more. `enumerations` counts the calls made so far. */
  class Provider {
    const enumerate: nat -> seq<SiteBase>
    var enumerations: nat

    constructor (enumerate: nat -> seq<SiteBase>)
      ensures this.enumerate == enumerate && enumerations == 0
    {
      this.enumerate := enumerate;
      enumerations := 0;
    }

    method Spliterator() returns (sites: seq<SiteBase>)
      modifies this
      ensures sites == enumerate(old(enumerations))
      ensures enumerations == old(enumerations) + 1
    {
      sites := enumerate(enumerations);
      enumerations := enumerations + 1;
    }
  }

  /** A `Consumer<SiteDescriptor>`; `accepted` is the log of the descriptors passed to
      `accept`, in order. The no-operation consumer is one whose log nobody reads. */
  class Reporter {
    ghost var accepted: seq<SiteDescriptor>

    constructor ()
      ensures accepted == []
    {
      accepted := [];
    }

    method Accept(descriptor: SiteDescriptor)
      modifies this
      ensures accepted == old(accepted) + [descriptor]
    {
      accepted := accepted + [descriptor];
    }
  }

  /** The descriptors of a list of sites, in the list's order. */
  function Descriptors(sites: seq<SiteBase>): (r: seq<SiteDescriptor>)
    ensures |r| == |sites|
    ensures forall i :: 0 <= i < |sites| ==> r[i] == GetSiteDescriptor(sites[i])
  {
    if sites == [] then [] else Descriptors(sites[..|sites| - 1]) + [GetSiteDescriptor(sites[|sites| - 1])]
  }

  class SiteLoader {
    /** The cache: `None` is the `null` of the uncached state. */
    var sites: Option<seq<SiteBase>>
    const loader: Provider
    const siteReporter: Reporter

    /** The package-private constructor: a `null` reporter is replaced by a fresh
        no-operation consumer. */
    constructor (loader: Provider, siteReporter: Reporter?)
      ensures sites.None? && this.loader == loader
      ensures siteReporter != null ==> this.siteReporter == siteReporter
      ensures siteReporter == null ==> fresh(this.siteReporter) && this.siteReporter.accepted == []
    {
      this.loader := loader;
      if siteReporter != null {
        this.siteReporter := siteReporter;
      } else {
        var noOperation := new Reporter();
        this.siteReporter := noOperation;
      }
      sites := None;
    }

    /** `findSitesOnClasspath()`. Uncached: one enumeration of the provider, every site's
        descriptor reported once and in order, and the list cached. Cached: the cached
        list, with neither the provider nor the reporter touched. Either way the cache
        then holds exactly the returned list. */
    method FindSitesOnClasspath() returns (result: seq<SiteBase>)
      modifies this, loader, siteReporter
      ensures sites == Some(result)
      ensures old(sites).Some? ==>
                && result == old(sites).value
                && loader.enumerations == old(loader.enumerations)
                && siteReporter.accepted == old(siteReporter.accepted)
      ensures old(sites).None? ==>
                && result == loader.enumerate(old(loader.enumerations))
                && loader.enumerations == old(loader.enumerations) + 1
                && siteReporter.accepted == old(siteReporter.accepted) + Descriptors(result)
    {
      if sites.None? {
        var found := loader.Spliterator();
        for i := 0 to |found|
          invariant loader.enumerations == old(loader.enumerations) + 1
          invariant siteReporter.accepted == old(siteReporter.accepted) + Descriptors(found[..i])
        {
          siteReporter.Accept(GetSiteDescriptor(found[i]));
          assert found[..i + 1][..i] == found[..i];
        }
        assert found[..|found|] == found;
        sites := Some(found);
      }
      result := sites.value;
    }

    /** `clearCache()`: back to the uncached state. */
    method ClearCache()
      modifies this
      ensures sites.None?
    {
      sites := None;
    }
  }

  /** The public constructors take `ServiceLoader.load(Site.class)` as the provider; the one
      without a reporter passes `null`, so it reports to a fresh no-operation consumer. */
  method NewDefaultSiteLoader(loader: Provider) returns (siteLoader: SiteLoader)
    ensures fresh(siteLoader) && fresh(siteLoader.siteReporter)
    ensures siteLoader.sites.None? && siteLoader.loader == loader
  {
    siteLoader := new SiteLoader(loader, null);
  }

  /** Two calls in a row share one enumeration: the second returns the first's list, and
      only a call made while uncached enumerates and reports. */
  method CachedCallsShareOneList(siteLoader: SiteLoader) returns (first: seq<SiteBase>, second: seq<SiteBase>)
    modifies siteLoader, siteLoader.loader, siteLoader.siteReporter
    ensures first == second
    ensures siteLoader.loader.enumerations ==
            old(siteLoader.loader.enumerations) + (if old(siteLoader.sites).None? then 1 else 0)
    ensures siteLoader.siteReporter.accepted ==
            old(siteLoader.siteReporter.accepted) + (if old(siteLoader.sites).None? then Descriptors(first) else [])
  {
    first := siteLoader.FindSitesOnClasspath();
    second := siteLoader.FindSitesOnClasspath();
  }

  /** A cleared cache is filled again by the next call, from a new enumeration that is
      reported in full. */
  method ClearCacheReloads(siteLoader: SiteLoader) returns (first: seq<SiteBase>, second: seq<SiteBase>)
    modifies siteLoader, siteLoader.loader, siteLoader.siteReporter
    ensures siteLoader.loader.enumerations ==
            old(siteLoader.loader.enumerations) + (if old(siteLoader.sites).None? then 2 else 1)
    ensures second == siteLoader.loader.enumerate(siteLoader.loader.enumerations - 1)
    ensures siteLoader.sites == Some(second)
    ensures siteLoader.siteReporter.accepted ==
            old(siteLoader.siteReporter.accepted) +
            (if old(siteLoader.sites).None? then Descriptors(first) else []) + Descriptors(second)
  {
    first := siteLoader.FindSitesOnClasspath();
    siteLoader.ClearCache();
    second := siteLoader.FindSitesOnClasspath();
  }

  /** One registered site: the call returns it and reports its descriptor once. */
  method SingleSiteFound(site: SiteBase) returns (sites: seq<SiteBase>, ghost reported: seq<SiteDescriptor>)
    ensures sites == [site]
    ensures reported == [GetSiteDescriptor(site)]
  {
    var provider := new Provider((n: nat) => [site]);
    var reporter := new Reporter();
    var siteLoader := new SiteLoader(provider, reporter);
    sites := siteLoader.FindSitesOnClasspath();
    reported := reporter.accepted;
  }

  /** Finding, clearing and finding again enumerates the provider twice and yields the
      same single site both times. */
  method SingleSiteAfterClear(site: SiteBase) returns (first: seq<SiteBase>, second: seq<SiteBase>, enumerations: nat)
    ensures first == [site] && second == [site]
    ensures enumerations == 2
  {
    var provider := new Provider((n: nat) => [site]);
    var siteLoader := new SiteLoader(provider, null);
    first := siteLoader.FindSitesOnClasspath();
    siteLoader.ClearCache();
    second := siteLoader.FindSitesOnClasspath();
    enumerations := provider.enumerations;
  }
}

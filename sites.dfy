/** `AbstractSiteBase`: a site plugin that holds the descriptor given to its constructor
    and by default offers neither a canonizer nor an extractor for any URI. */
module Sites {
  import opened Wrappers
  import opened SiteDescriptors

  /** The `Canonizer` a site may offer for a URI; the model only needs to know whether
      one is offered, so it records the URI it was made for. */
  datatype Canonizer = Canonizer(uri: Uri)

  /** The `Extractor` a site may offer for a URI, recorded the same way. */
  datatype Extractor = Extractor(uri: Uri)

  /** A site built on `AbstractSiteBase`: its one final field is the descriptor. */
  datatype SiteBase = SiteBase(descriptor: SiteDescriptor)

  /** The protected constructor stores the descriptor as given. */
  function NewSiteBase(descriptor: SiteDescriptor): (site: SiteBase)
    ensures GetSiteDescriptor(site) == descriptor
  {
    SiteBase(descriptor)
  }

  /** `getSiteDescriptor()`: the stored descriptor. */
  function GetSiteDescriptor(site: SiteBase): (descriptor: SiteDescriptor)
    ensures SiteBase(descriptor) == site
  {
    site.descriptor
  }

  /** The default `newCanonizer(uri)`: no canonizer, whatever the URI. */
  function NewCanonizer(site: SiteBase, uri: Uri): (r: Option<Canonizer>)
    ensures r.None?
  {
    None
  }

  /** The default `newExtractor(uri)`: no extractor, whatever the URI. */
  function NewExtractor(site: SiteBase, uri: Uri): (r: Option<Extractor>)
    ensures r.None?
  {
    None
  }
}

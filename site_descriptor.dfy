/** `SiteDescriptor`: the immutable description of a site plugin, made by a fluent
    builder whose label is fixed at construction. */
module SiteDescriptors {
  import opened Wrappers

  /** The five final fields of a descriptor. The getters of the optional ones wrap a
      `null` field as an empty `Optional`, which is what `None` stands for here. */
  datatype SiteDescriptor = SiteDescriptor(
    siteLabel: string,
    description: Option<string>,
    site: Option<Uri>,
    author: Option<string>,
    license: Option<string>)

  /** `SiteDescriptor.Builder`: the label is final, the other fields start out `null` and
      each setter overwrites its own field and returns the builder itself. */
  class Builder {
    const siteLabel: string
    var description: Option<string>
    var site: Option<Uri>
    var author: Option<string>
    var license: Option<string>

    constructor (siteLabel: string)
      ensures this.siteLabel == siteLabel
      ensures description.None? && site.None? && author.None? && license.None?
    {
      this.siteLabel := siteLabel;
      description := None;
      site := None;
      author := None;
      license := None;
    }

    method Description(description: Option<string>) returns (self: Builder)
      modifies this
      ensures self == this
      ensures this.description == description
      ensures site == old(site) && author == old(author) && license == old(license)
    {
      this.description := description;
      self := this;
    }

    method Site(site: Option<Uri>) returns (self: Builder)
      modifies this
      ensures self == this
      ensures this.site == site
      ensures description == old(description) && author == old(author) && license == old(license)
    {
      this.site := site;
      self := this;
    }

    method Author(author: Option<string>) returns (self: Builder)
      modifies this
      ensures self == this
      ensures this.author == author
      ensures description == old(description) && site == old(site) && license == old(license)
    {
      this.author := author;
      self := this;
    }

    method License(license: Option<string>) returns (self: Builder)
      modifies this
      ensures self == this
      ensures this.license == license
      ensures description == old(description) && site == old(site) && author == old(author)
    {
      this.license := license;
      self := this;
    }

    /** `build()` always succeeds: each getter of the new descriptor answers with the
        builder's field at the time of the call. */
    function Build(): (r: SiteDescriptor)
      reads this
      ensures r.siteLabel == siteLabel
      ensures r.description == description && r.site == site
      ensures r.author == author && r.license == license
    {
      SiteDescriptor(siteLabel, description, site, author, license)
    }
  }

  /** A descriptor is a snapshot: setting a field after `build()` leaves the built one as
      it was, and the next `build()` shows the new value with the label unchanged. */
  method SnapshotOnBuild(builder: Builder, author: Option<string>) returns (before: SiteDescriptor, after: SiteDescriptor)
    modifies builder
    ensures before == old(builder.Build())
    ensures after == before.(author := author)
  {
    before := builder.Build();
    var self := builder.Author(author);
    after := builder.Build();
  }

  /** The usage shown for the builder: every field set once, then built. */
  method ExampleDescriptor() returns (r: SiteDescriptor)
    ensures r.siteLabel == "label" && r.description == Some("description")
    ensures r.site == Some("http://example.com")
    ensures r.author == Some("author") && r.license == Some("license")
  {
    var builder := new Builder("label");
    builder := builder.Description(Some("description"));
    builder := builder.Site(Some("http://example.com"));
    builder := builder.Author(Some("author"));
    builder := builder.License(Some("license"));
    r := builder.Build();
  }

  /** Setting a field twice keeps the second value; setting it to `null` clears it. */
  method LastWriteWins(siteLabel: string, first: string, second: Option<string>) returns (r: SiteDescriptor)
    ensures r == SiteDescriptor(siteLabel, second, None, None, None)
  {
    var builder := new Builder(siteLabel);
    builder := builder.Description(Some(first));
    builder := builder.Description(second);
    r := builder.Build();
  }
}

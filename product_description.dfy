/** `ProductDescription`: an immutable id/name/image holder and its builder, which
    yields no description at all when none of the three was set. */
module ProductDescriptions {
  import opened Wrappers

  /** The three final fields; the getters wrap a `null` field as an empty `Optional`. */
  datatype ProductDescription = ProductDescription(id: Option<string>, name: Option<string>, image: Option<Uri>)

  /** `ProductDescription.Builder`: three fields, all `null` at first. */
  class Builder {
    var id: Option<string>
    var name: Option<string>
    var image: Option<Uri>

    constructor ()
      ensures id.None? && name.None? && image.None?
    {
      id := None;
      name := None;
      image := None;
    }

    method SetId(id: Option<string>) returns (self: Builder)
      modifies this
      ensures self == this
      ensures this.id == id && name == old(name) && image == old(image)
    {
      this.id := id;
      self := this;
    }

    method SetName(name: Option<string>) returns (self: Builder)
      modifies this
      ensures self == this
      ensures this.name == name && id == old(id) && image == old(image)
    {
      this.name := name;
      self := this;
    }

    method SetImage(image: Option<Uri>) returns (self: Builder)
      modifies this
      ensures self == this
      ensures this.image == image && id == old(id) && name == old(name)
    {
      this.image := image;
      self := this;
    }

    /** `build()`: empty exactly when every field is unset; otherwise a description whose
        getters answer with the builder's fields. */
    function Build(): (r: Option<ProductDescription>)
      reads this
      ensures r.None? <==> id.None? && name.None? && image.None?
      ensures r.Some? ==> r.value.id == id && r.value.name == name && r.value.image == image
    {
      if id.None? && name.None? && image.None? then None
      else Some(ProductDescription(id, name, image))
    }
  }

  /** Any one field set is enough for a description; the others stay empty. */
  method OnlyNameSet(name: string) returns (r: Option<ProductDescription>)
    ensures r == Some(ProductDescription(None, Some(name), None))
  {
    var builder := new Builder();
    builder := builder.SetName(Some(name));
    r := builder.Build();
  }

  /** Setting a field back to `null` undoes it: with nothing else set, no description. */
  method ClearedFieldGivesNothing(id: string) returns (r: Option<ProductDescription>)
    ensures r.None?
  {
    var builder := new Builder();
    builder := builder.SetId(Some(id));
    builder := builder.SetId(None);
    r := builder.Build();
  }

  /** A built description is a snapshot of the builder: setting the image afterwards
      leaves it as it was, and the next `build()` differs from it in the image alone. */
  method SnapshotOnBuild(builder: Builder, image: Option<Uri>) returns (before: Option<ProductDescription>, after: Option<ProductDescription>)
    modifies builder
    ensures before == old(builder.Build())
    ensures after.None? <==> old(builder.id).None? && old(builder.name).None? && image.None?
    ensures before.Some? && after.Some? ==> after.value == before.value.(image := image)
  {
    before := builder.Build();
    var self := builder.SetImage(image);
    after := builder.Build();
  }
}

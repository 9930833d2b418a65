/** `PluginTypeInspector`: the YAML type inspector that decides which
    properties of a default configuration object are written to its file. */
module TypeInspector {
  import opened Model
  import opened Seqs

  /** The converted name of `ControllerConfiguration.FileName`, which says
      where the file lives and is therefore not a setting in it. */
  const FileNameProperty := "file_name"

  predicate Writable(p: PropertyDescriptor) {
    p.canWrite
  }

  predicate NotFileName(p: PropertyDescriptor) {
    p.name != FileNameProperty
  }

  /** A property that ends up in a generated configuration file. */
  predicate Serialized(p: PropertyDescriptor) {
    p.canWrite && p.name != FileNameProperty
  }

  /** `GetProperties`: the inner inspector's properties, keeping the
      writable ones and then dropping `file_name`. Exactly the writable
      properties other than `file_name` remain, in the inner order. */
  function GetProperties(inner: seq<PropertyDescriptor>): (r: seq<PropertyDescriptor>)
    ensures forall p :: p in r <==> p in inner && p.canWrite && p.name != FileNameProperty
    ensures IsSubsequence(r, inner)
  {
    FilterFuse(Writable, NotFileName, Serialized, inner);
    Filter(NotFileName, Filter(Writable, inner))
  }

  /** Filtering an already filtered list changes nothing. */
  lemma GetPropertiesIdempotent(inner: seq<PropertyDescriptor>)
    ensures GetProperties(GetProperties(inner)) == GetProperties(inner)
  {
    var once := GetProperties(inner);
    FilterFuse(Writable, NotFileName, Serialized, once);
    FilterKeepsAll(Serialized, once);
  }

  /** The filter works property by property: the inner inspector's order
      is kept across any split of its list. */
  lemma GetPropertiesConcat(a: seq<PropertyDescriptor>, b: seq<PropertyDescriptor>)
    ensures GetProperties(a + b) == GetProperties(a) + GetProperties(b)
  {
    FilterFuse(Writable, NotFileName, Serialized, a + b);
    FilterFuse(Writable, NotFileName, Serialized, a);
    FilterFuse(Writable, NotFileName, Serialized, b);
    FilterConcat(Serialized, a, b);
  }
}

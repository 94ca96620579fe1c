/**
 * The API tag type of actions/types.go, its `normalizeTags` (which stamps the organisation's
 * ownership tag on a tag list) and the two conversions between API tags and provider tags.
 */
module ApiTypes {
  import opened Wrappers
  import opened ErrorValues
  import opened OwnerTags
  import Provider

  /** The API's `Tag`: both fields are pointers and may be nil. */
  datatype Tag = Tag(key: Option<string>, value: Option<string>)

  const OwnerKey: string := "spinup:org"
  const LegacyOwnerKey: string := "yale:org"

  /** A tag the normaliser replaces: its key (nil read as "") is one of the two owner keys. */
  predicate IsOwnerTag(t: Tag) {
    StringValue(t.key) == OwnerKey || StringValue(t.key) == LegacyOwnerKey
  }

  function OwnerTag(org: string): (t: Tag)
    ensures IsOwnerTag(t)
  {
    Tag(Some(OwnerKey), Some(org))
  }

  /** `normalizeTags` over API tags, for the organisation `org`. */
  method NormalizeTags(tags: seq<Tag>, org: string) returns (r: seq<Tag>)
    ensures r == Normalized(tags, IsOwnerTag, OwnerTag(org))
  {
    r := [];
    for i := 0 to |tags|
      invariant r == Kept(tags[..i], IsOwnerTag)
    {
      assert tags[..i + 1][..i] == tags[..i];
      if IsOwnerTag(tags[i]) {
        continue;
      }
      r := r + [tags[i]];
    }
    assert tags[..|tags|] == tags;
    r := r + [OwnerTag(org)];
  }

  /**
   * The normalised list holds exactly one tag with key "spinup:org": the last one, whose value is
   * the organisation. A tag with a nil key reads as "" and is kept.
   */
  lemma NormalizedOwnership(tags: seq<Tag>, org: string)
    ensures var r := Normalized(tags, IsOwnerTag, OwnerTag(org));
      r[|r| - 1] == Tag(Some(OwnerKey), Some(org)) &&
      forall i :: 0 <= i < |r| ==> (StringValue(r[i].key) == OwnerKey <==> i == |r| - 1)
    ensures forall t :: t in tags && t.key.None? ==> t in Normalized(tags, IsOwnerTag, OwnerTag(org))
  {
    OwnerTagUnique(tags, IsOwnerTag, OwnerTag(org));
    forall t | t in tags && t.key.None?
      ensures t in Normalized(tags, IsOwnerTag, OwnerTag(org))
    {
      KeptCounts(tags, IsOwnerTag, t);
    }
  }

  /** `fromRDSTags` as a value: position by position, the same key and value pointers. */
  function AsApiTags(tags: seq<Provider.RdsTag>): (r: seq<Tag>)
    ensures |r| == |tags|
    ensures forall i :: 0 <= i < |tags| ==> r[i].key == tags[i].key && r[i].value == tags[i].value
  {
    seq(|tags|, i requires 0 <= i < |tags| => Tag(tags[i].key, tags[i].value))
  }

  /** `toRDSTags` as a value: position by position, the same key and value pointers. */
  function AsRdsTags(tags: seq<Tag>): (r: seq<Provider.RdsTag>)
    ensures |r| == |tags|
    ensures forall i :: 0 <= i < |tags| ==> r[i].key == tags[i].key && r[i].value == tags[i].value
  {
    seq(|tags|, i requires 0 <= i < |tags| => Provider.RdsTag(tags[i].key, tags[i].value))
  }

  /** `fromRDSTags`: builds a fresh list with one API tag per provider tag. */
  method FromRdsTags(tags: seq<Provider.RdsTag>) returns (r: seq<Tag>)
    ensures r == AsApiTags(tags)
  {
    r := [];
    for i := 0 to |tags|
      invariant r == AsApiTags(tags[..i])
    {
      r := r + [Tag(tags[i].key, tags[i].value)];
    }
    assert tags[..|tags|] == tags;
  }

  /** `toRDSTags`: builds a fresh list with one provider tag per API tag. */
  method ToRdsTags(tags: seq<Tag>) returns (r: seq<Provider.RdsTag>)
    ensures r == AsRdsTags(tags)
  {
    r := [];
    for i := 0 to |tags|
      invariant r == AsRdsTags(tags[..i])
    {
      r := r + [Provider.RdsTag(tags[i].key, tags[i].value)];
    }
    assert tags[..|tags|] == tags;
  }

  /** Converting to provider tags and back gives the same tags, and the other way round. */
  lemma TagConversionsRoundTrip(api: seq<Tag>, rds: seq<Provider.RdsTag>)
    ensures AsApiTags(AsRdsTags(api)) == api
    ensures AsRdsTags(AsApiTags(rds)) == rds
  {
  }
}

/**
 * The ownership-tag rule shared by the three `normalizeTags` functions (actions/types.go,
 * actions/orchestration.go, actions/databases.go): drop every reserved tag, keep the others in
 * their order, duplicates included, and append the one owner tag. It is stated once here, generic
 * in the tag type; each source file's own loop is proved against it in that file's module.
 */
module OwnerTags {
  import opened Wrappers
  import opened ErrorValues
  import Provider

  /** The tags of `tags` that are not reserved, in their original order. */
  function Kept<T>(tags: seq<T>, reserved: T -> bool): (r: seq<T>)
    ensures |r| <= |tags|
  {
    if tags == [] then []
    else
      var last := tags[|tags| - 1];
      Kept(tags[..|tags| - 1], reserved) + (if reserved(last) then [] else [last])
  }

  /** The normalised list: the kept tags followed by the owner tag. */
  function Normalized<T>(tags: seq<T>, reserved: T -> bool, owner: T): (r: seq<T>)
    ensures |r| == |Kept(tags, reserved)| + 1 && r[|r| - 1] == owner
  {
    Kept(tags, reserved) + [owner]
  }

  /** Keeping distributes over concatenation, so the kept tags stay in their relative order. */
  lemma {:induction false} KeptAppend<T>(a: seq<T>, b: seq<T>, reserved: T -> bool)
    ensures Kept(a + b, reserved) == Kept(a, reserved) + Kept(b, reserved)
  {
    if b == [] {
      assert a + b == a;
    } else {
      var last := b[|b| - 1];
      assert (a + b)[..|a + b| - 1] == a + b[..|b| - 1];
      KeptAppend(a, b[..|b| - 1], reserved);
    }
  }

  /** No reserved tag is kept. */
  lemma {:induction false} KeptHasNoReserved<T>(tags: seq<T>, reserved: T -> bool)
    ensures forall i :: 0 <= i < |Kept(tags, reserved)| ==> !reserved(Kept(tags, reserved)[i])
  {
    if tags != [] {
      KeptHasNoReserved(tags[..|tags| - 1], reserved);
    }
  }

  /** Every unreserved tag is kept as often as it occurs (duplicates included); reserved ones never. */
  lemma {:induction false} KeptCounts<T>(tags: seq<T>, reserved: T -> bool, t: T)
    ensures multiset(Kept(tags, reserved))[t] == if reserved(t) then 0 else multiset(tags)[t]
  {
    if tags != [] {
      var init := tags[..|tags| - 1];
      KeptCounts(init, reserved, t);
      assert tags == init + [tags[|tags| - 1]];
    }
  }

  /** Keeping twice is keeping once. */
  lemma {:induction false} KeptIdempotent<T>(tags: seq<T>, reserved: T -> bool)
    ensures Kept(Kept(tags, reserved), reserved) == Kept(tags, reserved)
  {
    if tags != [] {
      var init := tags[..|tags| - 1];
      var last := tags[|tags| - 1];
      KeptIdempotent(init, reserved);
      if reserved(last) {
        assert Kept(tags, reserved) == Kept(init, reserved) + [];
        assert Kept(init, reserved) + [] == Kept(init, reserved);
      } else {
        KeptAppend(Kept(init, reserved), [last], reserved);
        assert Kept([last], reserved) == Kept([], reserved) + [last] by {
          assert [last][..0] == [];
        }
      }
    }
  }

  /**
   * When the owner tag is itself reserved, the owner tag is the only reserved tag of the result and
   * it is the last one.
   */
  lemma OwnerTagUnique<T>(tags: seq<T>, reserved: T -> bool, owner: T)
    requires reserved(owner)
    ensures var r := Normalized(tags, reserved, owner);
      forall i :: 0 <= i < |r| ==> (reserved(r[i]) <==> i == |r| - 1)
  {
    KeptHasNoReserved(tags, reserved);
  }

  /** Normalising an already normalised list changes nothing. */
  lemma NormalizedIdempotent<T>(tags: seq<T>, reserved: T -> bool, owner: T)
    requires reserved(owner)
    ensures Normalized(Normalized(tags, reserved, owner), reserved, owner) == Normalized(tags, reserved, owner)
  {
    var k := Kept(tags, reserved);
    KeptAppend(k, [owner], reserved);
    assert Kept([owner], reserved) == [] by {
      assert [owner][..0] == [];
    }
    KeptIdempotent(tags, reserved);
  }

  /** A provider tag `normalizeTags` replaces: its key (nil read as "") is "spinup:org" or "yale:org". */
  predicate IsOwnerRdsTag(t: Provider.RdsTag) {
    StringValue(t.key) == "spinup:org" || StringValue(t.key) == "yale:org"
  }

  function RdsOwnerTag(org: string): (t: Provider.RdsTag)
    ensures IsOwnerRdsTag(t)
  {
    Provider.RdsTag(Some("spinup:org"), Some(org))
  }

  /** The provider-tag list `normalizeTags` returns for the organisation `org`. */
  function NormalizedRds(tags: seq<Provider.RdsTag>, org: string): seq<Provider.RdsTag> {
    Normalized(tags, IsOwnerRdsTag, RdsOwnerTag(org))
  }
}

/** The rewrite of an object's tag set after a scan (`set_av_tags`). */
module Tags {

  /** One `{"Key": ..., "Value": ...}` entry of a tag set. */
  datatype Tag = Tag(key: string, value: string)

  /** The tag is a status tag or a timestamp tag: its key is one of the two configured keys. */
  predicate IsAvTag(t: Tag, statusKey: string, timestampKey: string)
  {
    t.key == statusKey || t.key == timestampKey
  }

  /** The tags that are neither status nor timestamp tags, in their original order. */
  function Strip(tags: seq<Tag>, statusKey: string, timestampKey: string): (kept: seq<Tag>)
    ensures |kept| <= |tags|
  {
    if tags == [] then []
    else
      var last := tags[|tags| - 1];
      Strip(tags[..|tags| - 1], statusKey, timestampKey)
        + (if IsAvTag(last, statusKey, timestampKey) then [] else [last])
  }

  /**
   * The kept tags are exactly the tags of the input that are neither status
   * nor timestamp tags.
   */
  lemma {:induction false} StripMembers(tags: seq<Tag>, statusKey: string, timestampKey: string)
    ensures forall t :: t in Strip(tags, statusKey, timestampKey) <==> t in tags && !IsAvTag(t, statusKey, timestampKey)
  {
    if tags != [] {
      var init := tags[..|tags| - 1];
      StripMembers(init, statusKey, timestampKey);
      assert tags == init + [tags[|tags| - 1]];
    }
  }

  lemma StripExcludes(tags: seq<Tag>, x: Tag, statusKey: string, timestampKey: string)
    requires IsAvTag(x, statusKey, timestampKey)
    ensures x !in Strip(tags, statusKey, timestampKey)
  {
    StripMembers(tags, statusKey, timestampKey);
  }

  /** The tag set written back: the stripped tags, then the status tag, then the timestamp tag. */
  function AvTagged(tags: seq<Tag>, statusKey: string, timestampKey: string, result: string, timestamp: string): seq<Tag>
  {
    Strip(tags, statusKey, timestampKey) + [Tag(statusKey, result), Tag(timestampKey, timestamp)]
  }

  /** `list.remove(x)`: drops the first element equal to `x`. */
  function RemoveFirst<T(==)>(s: seq<T>, x: T): (r: seq<T>)
    requires x in s
    ensures |r| == |s| - 1
  {
    if s[0] == x then s[1..] else [s[0]] + RemoveFirst(s[1..], x)
  }

  lemma {:induction false} RemoveFirstAfter<T>(prefix: seq<T>, x: T, suffix: seq<T>)
    requires x !in prefix
    ensures RemoveFirst(prefix + [x] + suffix, x) == prefix + suffix
  {
    if prefix != [] {
      assert (prefix + [x] + suffix)[1..] == prefix[1..] + [x] + suffix;
      RemoveFirstAfter(prefix[1..], x, suffix);
    }
  }

  /**
   * `set_av_tags` on the current tag set: copies it, removes every status and
   * timestamp tag while walking the original, then appends the new ones.
   */
  method SetAvTags(currTags: seq<Tag>, statusKey: string, timestampKey: string, result: string, timestamp: string)
    returns (newTags: seq<Tag>)
    ensures newTags == AvTagged(currTags, statusKey, timestampKey, result, timestamp)
  {
    newTags := currTags;
    for i := 0 to |currTags|
      invariant newTags == Strip(currTags[..i], statusKey, timestampKey) + currTags[i..]
    {
      var tag := currTags[i];
      if IsAvTag(tag, statusKey, timestampKey) {
        RemoveStep(currTags, i, statusKey, timestampKey);
        newTags := RemoveFirst(newTags, tag);
      } else {
        KeepStep(currTags, i, statusKey, timestampKey);
      }
    }
    assert currTags[..|currTags|] == currTags;
    newTags := newTags + [Tag(statusKey, result)];
    newTags := newTags + [Tag(timestampKey, timestamp)];
  }

  /** One loop step on a status or timestamp tag: `remove` takes out exactly that tag. */
  lemma RemoveStep(tags: seq<Tag>, i: nat, statusKey: string, timestampKey: string)
    requires i < |tags| && IsAvTag(tags[i], statusKey, timestampKey)
    ensures tags[i] in Strip(tags[..i], statusKey, timestampKey) + tags[i..]
    ensures RemoveFirst(Strip(tags[..i], statusKey, timestampKey) + tags[i..], tags[i])
         == Strip(tags[..i + 1], statusKey, timestampKey) + tags[i + 1..]
  {
    var kept := Strip(tags[..i], statusKey, timestampKey);
    assert tags[..i + 1][..i] == tags[..i];
    assert tags[i..] == [tags[i]] + tags[i + 1..];
    assert kept + tags[i..] == kept + [tags[i]] + tags[i + 1..];
    StripExcludes(tags[..i], tags[i], statusKey, timestampKey);
    RemoveFirstAfter(kept, tags[i], tags[i + 1..]);
  }

  /** One loop step on any other tag: the tag stays where it is. */
  lemma KeepStep(tags: seq<Tag>, i: nat, statusKey: string, timestampKey: string)
    requires i < |tags| && !IsAvTag(tags[i], statusKey, timestampKey)
    ensures Strip(tags[..i], statusKey, timestampKey) + tags[i..]
         == Strip(tags[..i + 1], statusKey, timestampKey) + tags[i + 1..]
  {
    assert tags[..i + 1][..i] == tags[..i];
    assert tags[i..] == [tags[i]] + tags[i + 1..];
  }

  /** Stripping a concatenation strips each part: the kept tags keep their relative order. */
  lemma {:induction false} StripAppend(a: seq<Tag>, b: seq<Tag>, statusKey: string, timestampKey: string)
    ensures Strip(a + b, statusKey, timestampKey) == Strip(a, statusKey, timestampKey) + Strip(b, statusKey, timestampKey)
  {
    if b != [] {
      var last := b[|b| - 1];
      assert (a + b)[..|a + b| - 1] == a + b[..|b| - 1];
      StripAppend(a, b[..|b| - 1], statusKey, timestampKey);
    } else {
      assert a + b == a;
    }
  }

  /** A tag set without status or timestamp tags is kept whole. */
  lemma {:induction false} StripKeepsPlainTags(tags: seq<Tag>, statusKey: string, timestampKey: string)
    requires forall t :: t in tags ==> !IsAvTag(t, statusKey, timestampKey)
    ensures Strip(tags, statusKey, timestampKey) == tags
  {
    if tags != [] {
      var init := tags[..|tags| - 1];
      assert tags[|tags| - 1] in tags;
      forall t | t in init ensures !IsAvTag(t, statusKey, timestampKey) {
        var j :| 0 <= j < |init| && init[j] == t;
        assert tags[j] == t;
      }
      StripKeepsPlainTags(init, statusKey, timestampKey);
    }
  }

  /**
   * Tagging an already tagged object replaces its status and timestamp tags:
   * the earlier verdict leaves no trace.
   */
  lemma RetagReplaces(tags: seq<Tag>, statusKey: string, timestampKey: string,
                      result1: string, timestamp1: string, result2: string, timestamp2: string)
    ensures AvTagged(AvTagged(tags, statusKey, timestampKey, result1, timestamp1), statusKey, timestampKey, result2, timestamp2)
         == AvTagged(tags, statusKey, timestampKey, result2, timestamp2)
  {
    var kept := Strip(tags, statusKey, timestampKey);
    var newOnes := [Tag(statusKey, result1), Tag(timestampKey, timestamp1)];
    StripAppend(kept, newOnes, statusKey, timestampKey);
    StripMembers(tags, statusKey, timestampKey);
    StripKeepsPlainTags(kept, statusKey, timestampKey);
    assert Strip(newOnes, statusKey, timestampKey) == [] by {
      assert newOnes[..1] == [Tag(statusKey, result1)];
      assert newOnes[..1][..0] == [];
    }
  }

  /** Re-running the tag rewrite with the same verdict and time changes nothing. */
  lemma AvTaggedIdempotent(tags: seq<Tag>, statusKey: string, timestampKey: string, result: string, timestamp: string)
    ensures AvTagged(AvTagged(tags, statusKey, timestampKey, result, timestamp), statusKey, timestampKey, result, timestamp)
         == AvTagged(tags, statusKey, timestampKey, result, timestamp)
  {
    RetagReplaces(tags, statusKey, timestampKey, result, timestamp, result, timestamp);
  }

  /** The number of tags with key `k`. */
  function CountKey(tags: seq<Tag>, k: string): nat
  {
    if tags == [] then 0
    else CountKey(tags[..|tags| - 1], k) + (if tags[|tags| - 1].key == k then 1 else 0)
  }

  lemma {:induction false} CountKeyAppend(a: seq<Tag>, b: seq<Tag>, k: string)
    ensures CountKey(a + b, k) == CountKey(a, k) + CountKey(b, k)
  {
    if b != [] {
      assert (a + b)[..|a + b| - 1] == a + b[..|b| - 1];
      CountKeyAppend(a, b[..|b| - 1], k);
    } else {
      assert a + b == a;
    }
  }

  lemma {:induction false} CountKeyAbsent(tags: seq<Tag>, k: string)
    requires forall t :: t in tags ==> t.key != k
    ensures CountKey(tags, k) == 0
  {
    if tags != [] {
      CountKeyAbsent(tags[..|tags| - 1], k);
    }
  }

  /**
   * With distinct keys, the written tag set holds exactly one status tag and
   * exactly one timestamp tag, whatever the object carried before.
   */
  lemma AvTaggedExactlyOne(tags: seq<Tag>, statusKey: string, timestampKey: string, result: string, timestamp: string)
    requires statusKey != timestampKey
    ensures CountKey(AvTagged(tags, statusKey, timestampKey, result, timestamp), statusKey) == 1
    ensures CountKey(AvTagged(tags, statusKey, timestampKey, result, timestamp), timestampKey) == 1
  {
    var kept := Strip(tags, statusKey, timestampKey);
    var newOnes := [Tag(statusKey, result), Tag(timestampKey, timestamp)];
    StripMembers(tags, statusKey, timestampKey);
    CountKeyAbsent(kept, statusKey);
    CountKeyAbsent(kept, timestampKey);
    CountKeyAppend(kept, newOnes, statusKey);
    CountKeyAppend(kept, newOnes, timestampKey);
    assert newOnes[..1] == [Tag(statusKey, result)];
    assert newOnes[..1][..0] == [];
    assert CountKey(newOnes[..1], statusKey) == 1;
    assert CountKey(newOnes[..1], timestampKey) == 0;
  }
}

/**
 * The tag rules of the transform: which stories get a test, which of those
 * are skipped, and which tags a story is judged by.
 */
module TagPolicies {
  import opened Wrappers

  /** The three comma-separated tag lists the environment supplies. */
  datatype TagPolicy = TagPolicy(includeTags: seq<string>, excludeTags: seq<string>, skipTags: seq<string>)

  /** `wanted.some((tag) => tags.includes(tag))`. */
  function SomeIncluded(wanted: seq<string>, tags: seq<string>): (r: bool)
    ensures r <==> exists i :: 0 <= i < |wanted| && wanted[i] in tags
  {
    if |wanted| == 0 then false
    else wanted[0] in tags || SomeIncluded(wanted[1..], tags)
  }

  /** `unwanted.every((tag) => !tags.includes(tag))`. */
  function NoneIncluded(unwanted: seq<string>, tags: seq<string>): (r: bool)
    ensures r <==> forall i :: 0 <= i < |unwanted| ==> unwanted[i] !in tags
  {
    if |unwanted| == 0 then true
    else unwanted[0] !in tags && NoneIncluded(unwanted[1..], tags)
  }

  /** A story passes the include filter when no include tag is given or it carries one of them. */
  function IsIncluded(tags: seq<string>, p: TagPolicy): (r: bool)
    ensures r <==> |p.includeTags| == 0 || exists t :: t in p.includeTags && t in tags
  {
    |p.includeTags| == 0 || SomeIncluded(p.includeTags, tags)
  }

  /** A story passes the exclude filter when it carries none of the exclude tags. */
  function IsNotExcluded(tags: seq<string>, p: TagPolicy): (r: bool)
    ensures r <==> forall t :: t in p.excludeTags ==> t !in tags
  {
    NoneIncluded(p.excludeTags, tags)
  }

  /** A story gets a test exactly when it passes both filters. */
  function IsKept(tags: seq<string>, p: TagPolicy): (r: bool)
    ensures r <==>
      && (|p.includeTags| == 0 || exists t :: t in p.includeTags && t in tags)
      && (forall t :: t in p.excludeTags ==> t !in tags)
  {
    IsIncluded(tags, p) && IsNotExcluded(tags, p)
  }

  /** A kept story is skipped when it carries one of the skip tags. */
  function ShouldSkip(tags: seq<string>, p: TagPolicy): (r: bool)
    ensures r <==> exists t :: t in p.skipTags && t in tags
  {
    SomeIncluded(p.skipTags, tags)
  }

  /**
   * `story.tags || meta.tags || []`: any array, even an empty one, is truthy,
   * so only an ABSENT story tag list falls back to the module's tags.
   */
  function EffectiveTags(own: Option<seq<string>>, meta: Option<seq<string>>): seq<string>
  {
    match own
    case Some(tags) => tags
    case None =>
      match meta
      case Some(tags) => tags
      case None => []
  }

  /** The effective tags of a story are its own, else the module's, else none. */
  lemma EffectiveTagsFallback(own: Option<seq<string>>, meta: Option<seq<string>>)
    ensures own.Some? ==> EffectiveTags(own, meta) == own.value
    ensures own.None? && meta.Some? ==> EffectiveTags(own, meta) == meta.value
    ensures own.None? && meta.None? ==> EffectiveTags(own, meta) == []
  {
  }

  /**
   * A story that declares an empty tag list does not inherit the module's
   * tags: it is kept only when there is no include tag, and it is never skipped.
   */
  lemma ExplicitEmptyTagsDoNotInherit(meta: Option<seq<string>>, p: TagPolicy)
    ensures EffectiveTags(Some([]), meta) == []
    ensures IsKept(EffectiveTags(Some([]), meta), p) <==> |p.includeTags| == 0
    ensures !ShouldSkip(EffectiveTags(Some([]), meta), p)
  {
  }

  /** A tag listed both to include and to exclude excludes: exclusion wins. */
  lemma ExcludeWins(tags: seq<string>, p: TagPolicy, t: string)
    requires t in tags && t in p.includeTags && t in p.excludeTags
    ensures !IsKept(tags, p)
  {
  }

  /** Whether a story is kept does not depend on the skip tags. */
  lemma SkipDoesNotAffectKept(tags: seq<string>, p: TagPolicy, skipTags: seq<string>)
    ensures IsKept(tags, p) == IsKept(tags, p.(skipTags := skipTags))
  {
  }
}

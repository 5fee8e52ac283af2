/**
 * The parsed story module the transform reads: its title, its default tags
 * and its stories in export order, and the per-story annotations the
 * transform derives from them.
 */
module CsfModel {
  import opened Wrappers
  import opened TagPolicies

  /** One exported story: its export key, its own tags if it declares any, and whether it has its own play function. */
  datatype StoryRecord = StoryRecord(key: string, tags: Option<seq<string>>, hasPlay: bool)

  /** A parsed story module: the user title, the default-export tags and the stories in export order. */
  datatype StoryModule = StoryModule(title: Option<string>, metaTags: Option<seq<string>>, stories: seq<StoryRecord>)

  /** What the transform records about a story: whether it has a play function, and its effective tags. */
  datatype Annotation = Annotation(hasPlay: bool, tags: seq<string>)

  /** The export keys of the stories, in export order (`Object.keys(csf._stories)`). */
  function Keys(stories: seq<StoryRecord>): (keys: seq<string>)
    ensures |keys| == |stories|
    ensures forall i :: 0 <= i < |stories| ==> keys[i] == stories[i].key
  {
    seq(|stories|, i requires 0 <= i < |stories| => stories[i].key)
  }

  /** Two export keys in key order belong to two stories in the same order. */
  lemma KeysInExportOrder(stories: seq<StoryRecord>, a: string, b: string)
    requires exists i1, i2 :: 0 <= i1 < i2 < |Keys(stories)| && a == Keys(stories)[i1] && b == Keys(stories)[i2]
    ensures exists i1, i2 :: 0 <= i1 < i2 < |stories| && a == stories[i1].key && b == stories[i2].key
  {
    var i1, i2 :| 0 <= i1 < i2 < |Keys(stories)| && a == Keys(stories)[i1] && b == Keys(stories)[i2];
    assert a == stories[i1].key && b == stories[i2].key;
  }

  /** The keys of an object are distinct. */
  predicate DistinctKeys(stories: seq<StoryRecord>)
  {
    forall i, j :: 0 <= i < j < |stories| ==> stories[i].key != stories[j].key
  }

  /** The annotation of one story in a module whose default tags are `metaTags`. */
  function AnnotationOf(s: StoryRecord, metaTags: Option<seq<string>>): Annotation
  {
    Annotation(s.hasPlay, EffectiveTags(s.tags, metaTags))
  }

  /** The annotation dictionary: every export key, and nothing else, mapped to its story's annotation. */
  function Annotations(m: StoryModule): (acc: map<string, Annotation>)
    requires DistinctKeys(m.stories)
    ensures forall i :: 0 <= i < |m.stories| ==>
      m.stories[i].key in acc && acc[m.stories[i].key] == AnnotationOf(m.stories[i], m.metaTags)
    ensures forall k :: k in acc <==> k in Keys(m.stories)
  {
    map i | 0 <= i < |m.stories| :: m.stories[i].key := AnnotationOf(m.stories[i], m.metaTags)
  }

  /**
   * The `reduce` that fills the annotation dictionary one export key at a
   * time: a fresh entry, its play flag when the story has one, then its tags.
   */
  method BuildStoryAnnotations(m: StoryModule) returns (acc: map<string, Annotation>)
    requires DistinctKeys(m.stories)
    ensures acc == Annotations(m)
  {
    acc := map[];
    var i := 0;
    while i < |m.stories|
      invariant 0 <= i <= |m.stories|
      invariant acc.Keys == set j | 0 <= j < i :: m.stories[j].key
      invariant forall j :: 0 <= j < i ==> acc[m.stories[j].key] == AnnotationOf(m.stories[j], m.metaTags)
    {
      var story := m.stories[i];
      var entry := Annotation(false, []);
      if story.hasPlay {
        entry := entry.(hasPlay := true);
      }
      entry := entry.(tags := EffectiveTags(story.tags, m.metaTags));
      acc := acc[story.key := entry];
      i := i + 1;
    }
    var spec := Annotations(m);
    assert acc.Keys == spec.Keys by {
      forall k | k in spec ensures k in acc {
        var j :| 0 <= j < |m.stories| && m.stories[j].key == k;
      }
    }
  }
}

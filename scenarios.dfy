/**
 * The snapshot cases of the Playwright transform tests, stated over the
 * model. Their module is titled `foo/bar`, and the test configuration turns
 * that title into `Example/foo/bar`. Their test prefixer gives at least two
 * statements for every story, as the Playwright prefixer does.
 */
module Scenarios {
  import opened Wrappers
  import opened TagPolicies
  import opened CsfModel
  import opened TestTree
  import opened CsfTransform

  /** The title the test configuration derives: the `Example/` prefix, and `Header` from the file name when the module has no title. */
  function ExampleTitle(userTitle: Option<string>): string
  {
    "Example/" + (if userTitle.Some? then userTitle.value else "Header")
  }

  /** Every call of the test prefixer yields a second statement. */
  ghost predicate BuildsTests<S>(testPrefixer: TestContext -> TemplateResult<S>)
  {
    forall c :: |MakeArray(testPrefixer(c))| >= 2
  }

  /** `n` is the group `describe(name, () => { it(test, …) })`, with `it.skip` when `skip`. */
  predicate GroupOf<E>(n: Node<E>, name: string, test: string, skip: bool)
  {
    && n.Describe? && n.name == name && |n.body| == 1
    && n.body[0].It? && n.body[0].name == test && n.body[0].skip == skip
  }

  /** One step of the include/exclude filter over a list of keys. */
  lemma KeptKeysStep(k: string, keys: seq<string>, ann: map<string, Annotation>, p: TagPolicy)
    requires k in ann && forall x :: x in keys ==> x in ann
    ensures KeptKeys([k] + keys, ann, p) == (if IsKept(ann[k].tags, p) then [k] else []) + KeptKeys(keys, ann, p)
  {
    assert ([k] + keys)[1..] == keys;
  }

  /** When the filters keep exactly two keys, the tests are their two groups in that order. */
  lemma TwoGroups<S, E>(keys: seq<string>, ann: map<string, Annotation>, title: Option<string>, p: TagPolicy,
                        testPrefixer: TestContext -> TemplateResult<S>, env: Env<S, E>, k0: string, k1: string)
    requires forall k :: k in keys ==> k in ann
    requires KeptKeys(keys, ann, p) == [k0, k1]
    requires Truthy(title) && BuildsTests(testPrefixer)
    ensures k0 in ann && k1 in ann
    ensures var r := AllTests(keys, ann, title, p, testPrefixer, env);
      && r.Ok? && |r.value| == 2
      && GroupOf(r.value[0], k0, if ann[k0].hasPlay then "play-test" else "smoke-test", ShouldSkip(ann[k0].tags, p))
      && GroupOf(r.value[1], k1, if ann[k1].hasPlay then "play-test" else "smoke-test", ShouldSkip(ann[k1].tags, p))
  {
    assert k0 in KeptKeys(keys, ann, p) && k1 in KeptKeys(keys, ann, p);
    GroupsWhenPrefixerBuildsTests(keys, ann, title, p, testPrefixer, env);
    assert KeptKeys(keys, ann, p)[0] == k0 && KeptKeys(keys, ann, p)[1] == k1;
  }

  /** When the filters keep exactly one key, the tests are its one group. */
  lemma OneGroup<S, E>(keys: seq<string>, ann: map<string, Annotation>, title: Option<string>, p: TagPolicy,
                       testPrefixer: TestContext -> TemplateResult<S>, env: Env<S, E>, k0: string)
    requires forall k :: k in keys ==> k in ann
    requires KeptKeys(keys, ann, p) == [k0]
    requires Truthy(title) && BuildsTests(testPrefixer)
    ensures k0 in ann
    ensures var r := AllTests(keys, ann, title, p, testPrefixer, env);
      && r.Ok? && |r.value| == 1
      && GroupOf(r.value[0], k0, if ann[k0].hasPlay then "play-test" else "smoke-test", ShouldSkip(ann[k0].tags, p))
  {
    assert k0 in KeptKeys(keys, ann, p);
    GroupsWhenPrefixerBuildsTests(keys, ann, title, p, testPrefixer, env);
    assert KeptKeys(keys, ann, p)[0] == k0;
  }

  /** Including `play` and `design` and excluding `exclude` keeps B and C of the four stories, in that order. */
  lemma CombinedFilter(ann: map<string, Annotation>, p: TagPolicy)
    requires p == TagPolicy(["play", "design"], ["exclude"], ["skip"])
    requires "A" in ann && "B" in ann && "C" in ann && "D" in ann
    requires ann["A"].tags == ["play", "exclude"] && ann["B"].tags == ["play", "skip"]
    requires ann["C"].tags == ["design"] && ann["D"].tags == []
    ensures KeptKeys(["A", "B", "C", "D"], ann, p) == ["B", "C"]
  {
    assert !IsKept(ann["A"].tags, p) by { assert "exclude" in ann["A"].tags; }
    assert IsKept(ann["B"].tags, p) by { assert "play" in ann["B"].tags; }
    assert IsKept(ann["C"].tags, p) by { assert "design" in ann["C"].tags; }
    assert !IsKept(ann["D"].tags, p);
    KeepsMiddleTwo(ann, p);
  }

  /** Of four keys, those kept when exactly the middle two pass the filters. */
  lemma KeepsMiddleTwo(ann: map<string, Annotation>, p: TagPolicy)
    requires "A" in ann && "B" in ann && "C" in ann && "D" in ann
    requires !IsKept(ann["A"].tags, p) && IsKept(ann["B"].tags, p) && IsKept(ann["C"].tags, p) && !IsKept(ann["D"].tags, p)
    ensures KeptKeys(["A", "B", "C", "D"], ann, p) == ["B", "C"]
  {
    KeptKeysStep("D", [], ann, p);
    assert KeptKeys(["D"], ann, p) == [];
    KeptKeysStep("C", ["D"], ann, p);
    assert KeptKeys(["C", "D"], ann, p) == ["C"];
    KeptKeysStep("B", ["C", "D"], ann, p);
    assert KeptKeys(["B", "C", "D"], ann, p) == ["B", "C"];
    KeptKeysStep("A", ["B", "C", "D"], ann, p);
  }

  /** Including only `play` drops an untagged story. */
  lemma UnmatchedIncludeFilter(ann: map<string, Annotation>, p: TagPolicy)
    requires p == TagPolicy(["play"], [], [])
    requires "A" in ann && ann["A"].tags == []
    ensures KeptKeys(["A"], ann, p) == []
  {
    KeptKeysStep("A", [], ann, p);
  }

  /** The keys and annotations of a module titled `foo/bar` with stories A and B, neither with a play function. */
  lemma TwoStories(m: StoryModule, tagsA: Option<seq<string>>, tagsB: Option<seq<string>>)
    requires m == StoryModule(Some("foo/bar"), None, [StoryRecord("A", tagsA, false), StoryRecord("B", tagsB, false)])
    ensures Keys(m.stories) == ["A", "B"] && DistinctKeys(m.stories)
    ensures var ann := Annotations(m);
      && "A" in ann && ann["A"] == Annotation(false, EffectiveTags(tagsA, None))
      && "B" in ann && ann["B"] == Annotation(false, EffectiveTags(tagsB, None))
  {
    assert m.stories[0].key == "A" && m.stories[1].key == "B";
  }

  /** The groups of two untagged stories without tag filtering. */
  lemma UnfilteredGroups<S, E>(keys: seq<string>, ann: map<string, Annotation>, title: Option<string>, p: TagPolicy,
                               testPrefixer: TestContext -> TemplateResult<S>, env: Env<S, E>)
    requires p == TagPolicy([], [], []) && keys == ["A", "B"]
    requires "A" in ann && ann["A"] == Annotation(false, []) && "B" in ann && ann["B"] == Annotation(false, [])
    requires Truthy(title) && BuildsTests(testPrefixer)
    ensures var r := AllTests(keys, ann, title, p, testPrefixer, env);
      && r.Ok? && |r.value| == 2
      && GroupOf(r.value[0], "A", "smoke-test", false)
      && GroupOf(r.value[1], "B", "smoke-test", false)
  {
    KeptKeysStep("B", [], ann, p);
    assert KeptKeys(["B"], ann, p) == ["B"];
    KeptKeysStep("A", ["B"], ann, p);
    TwoGroups(keys, ann, title, p, testPrefixer, env, "A", "B");
  }

  /** Stories A and B without tags and no tag filtering: both get a smoke test, A first, neither skipped. */
  lemma NoTagFilteringKeepsAll<S, E>(m: StoryModule, testPrefixer: TestContext -> TemplateResult<S>, env: Env<S, E>)
    requires m == StoryModule(Some("foo/bar"), None, [StoryRecord("A", None, false), StoryRecord("B", None, false)])
    requires BuildsTests(testPrefixer)
    ensures var r := AllTests(Keys(m.stories), Annotations(m), Some(ExampleTitle(m.title)), TagPolicy([], [], []), testPrefixer, env);
      && r.Ok? && |r.value| == 2
      && GroupOf(r.value[0], "A", "smoke-test", false)
      && GroupOf(r.value[1], "B", "smoke-test", false)
  {
    TwoStories(m, None, None);
    UnfilteredGroups(Keys(m.stories), Annotations(m), Some(ExampleTitle(m.title)), TagPolicy([], [], []), testPrefixer, env);
  }

  /** The group left when `exclude-test` is excluded and story A carries it. */
  lemma ExcludedGroups<S, E>(keys: seq<string>, ann: map<string, Annotation>, title: Option<string>, p: TagPolicy,
                             testPrefixer: TestContext -> TemplateResult<S>, env: Env<S, E>)
    requires p == TagPolicy([], ["exclude-test"], []) && keys == ["A", "B"]
    requires "A" in ann && ann["A"] == Annotation(false, ["exclude-test"]) && "B" in ann && ann["B"] == Annotation(false, [])
    requires Truthy(title) && BuildsTests(testPrefixer)
    ensures var r := AllTests(keys, ann, title, p, testPrefixer, env);
      && r.Ok? && |r.value| == 1
      && GroupOf(r.value[0], "B", "smoke-test", false)
  {
    assert !IsKept(ann["A"].tags, p) by { assert "exclude-test" in ann["A"].tags; }
    KeptKeysStep("B", [], ann, p);
    assert KeptKeys(["B"], ann, p) == ["B"];
    KeptKeysStep("A", ["B"], ann, p);
    OneGroup(keys, ann, title, p, testPrefixer, env, "B");
  }

  /** Excluding `exclude-test` drops story A, which carries it; B alone gets a test. */
  lemma ExcludeTagDropsStory<S, E>(m: StoryModule, testPrefixer: TestContext -> TemplateResult<S>, env: Env<S, E>)
    requires m == StoryModule(Some("foo/bar"), None, [StoryRecord("A", Some(["exclude-test"]), false), StoryRecord("B", None, false)])
    requires BuildsTests(testPrefixer)
    ensures var r := AllTests(Keys(m.stories), Annotations(m), Some(ExampleTitle(m.title)), TagPolicy([], ["exclude-test"], []),
                              testPrefixer, env);
      && r.Ok? && |r.value| == 1
      && GroupOf(r.value[0], "B", "smoke-test", false)
  {
    TwoStories(m, Some(["exclude-test"]), None);
    ExcludedGroups(Keys(m.stories), Annotations(m), Some(ExampleTitle(m.title)), TagPolicy([], ["exclude-test"], []),
                   testPrefixer, env);
  }

  /** The groups when `skip-test` is skipped and story A carries it. */
  lemma SkippedGroups<S, E>(keys: seq<string>, ann: map<string, Annotation>, title: Option<string>, p: TagPolicy,
                            testPrefixer: TestContext -> TemplateResult<S>, env: Env<S, E>)
    requires p == TagPolicy([], [], ["skip-test"]) && keys == ["A", "B"]
    requires "A" in ann && ann["A"] == Annotation(false, ["skip-test"]) && "B" in ann && ann["B"] == Annotation(false, [])
    requires Truthy(title) && BuildsTests(testPrefixer)
    ensures var r := AllTests(keys, ann, title, p, testPrefixer, env);
      && r.Ok? && |r.value| == 2
      && GroupOf(r.value[0], "A", "smoke-test", true)
      && GroupOf(r.value[1], "B", "smoke-test", false)
  {
    assert ShouldSkip(ann["A"].tags, p) by { assert "skip-test" in ann["A"].tags; }
    KeptKeysStep("B", [], ann, p);
    assert KeptKeys(["B"], ann, p) == ["B"];
    KeptKeysStep("A", ["B"], ann, p);
    TwoGroups(keys, ann, title, p, testPrefixer, env, "A", "B");
  }

  /** Skipping `skip-test` keeps story A, which carries it, as a skipped case; B is not skipped. */
  lemma SkipTagSkipsStory<S, E>(m: StoryModule, testPrefixer: TestContext -> TemplateResult<S>, env: Env<S, E>)
    requires m == StoryModule(Some("foo/bar"), None, [StoryRecord("A", Some(["skip-test"]), false), StoryRecord("B", None, false)])
    requires BuildsTests(testPrefixer)
    ensures var r := AllTests(Keys(m.stories), Annotations(m), Some(ExampleTitle(m.title)), TagPolicy([], [], ["skip-test"]),
                              testPrefixer, env);
      && r.Ok? && |r.value| == 2
      && GroupOf(r.value[0], "A", "smoke-test", true)
      && GroupOf(r.value[1], "B", "smoke-test", false)
  {
    TwoStories(m, Some(["skip-test"]), None);
    SkippedGroups(Keys(m.stories), Annotations(m), Some(ExampleTitle(m.title)), TagPolicy([], [], ["skip-test"]),
                  testPrefixer, env);
  }

  /** The keys and effective tags of the four stories of the combined case. */
  lemma FourTaggedStories(m: StoryModule)
    requires m == StoryModule(Some("foo/bar"), None,
                              [StoryRecord("A", Some(["play", "exclude"]), false), StoryRecord("B", Some(["play", "skip"]), false),
                               StoryRecord("C", Some(["design"]), false), StoryRecord("D", None, false)])
    ensures Keys(m.stories) == ["A", "B", "C", "D"] && DistinctKeys(m.stories)
    ensures var ann := Annotations(m);
      && "A" in ann && "B" in ann && "C" in ann && "D" in ann
      && ann["A"].tags == ["play", "exclude"] && ann["B"].tags == ["play", "skip"]
      && ann["C"].tags == ["design"] && ann["D"].tags == []
      && !ann["B"].hasPlay && !ann["C"].hasPlay
  {
    assert m.stories[0].key == "A" && m.stories[1].key == "B" && m.stories[2].key == "C" && m.stories[3].key == "D";
  }

  /** Of the stories B and C, only B carries the skip tag. */
  lemma CombinedSkip(ann: map<string, Annotation>, p: TagPolicy)
    requires p == TagPolicy(["play", "design"], ["exclude"], ["skip"])
    requires "B" in ann && "C" in ann && ann["B"].tags == ["play", "skip"] && ann["C"].tags == ["design"]
    ensures ShouldSkip(ann["B"].tags, p) && !ShouldSkip(ann["C"].tags, p)
  {
    assert "skip" in ann["B"].tags;
  }

  /** Include `play` and `design`, exclude `exclude`, skip `skip`: only B (skipped) and C get a test. */
  lemma IncludeExcludeAndSkipTogether<S, E>(m: StoryModule, testPrefixer: TestContext -> TemplateResult<S>, env: Env<S, E>)
    requires m == StoryModule(Some("foo/bar"), None,
                              [StoryRecord("A", Some(["play", "exclude"]), false), StoryRecord("B", Some(["play", "skip"]), false),
                               StoryRecord("C", Some(["design"]), false), StoryRecord("D", None, false)])
    requires BuildsTests(testPrefixer)
    ensures Keys(m.stories) == ["A", "B", "C", "D"] && DistinctKeys(m.stories)
    ensures
      var r := AllTests(Keys(m.stories), Annotations(m), Some(ExampleTitle(m.title)),
                        TagPolicy(["play", "design"], ["exclude"], ["skip"]), testPrefixer, env);
      && r.Ok? && |r.value| == 2
      && GroupOf(r.value[0], "B", "smoke-test", true)
      && GroupOf(r.value[1], "C", "smoke-test", false)
  {
    var title := Some(ExampleTitle(m.title));
    assert Truthy(title) by { assert ExampleTitle(m.title) == "Example/foo/bar"; }
    FourTaggedStories(m);
    CombinedGroups(Keys(m.stories), Annotations(m), title, TagPolicy(["play", "design"], ["exclude"], ["skip"]), testPrefixer, env);
  }

  /** The groups of the combined case, over its keys and effective tags. */
  lemma CombinedGroups<S, E>(keys: seq<string>, ann: map<string, Annotation>, title: Option<string>, p: TagPolicy,
                             testPrefixer: TestContext -> TemplateResult<S>, env: Env<S, E>)
    requires p == TagPolicy(["play", "design"], ["exclude"], ["skip"])
    requires keys == ["A", "B", "C", "D"]
    requires "A" in ann && "B" in ann && "C" in ann && "D" in ann
    requires ann["A"].tags == ["play", "exclude"] && ann["B"].tags == ["play", "skip"]
    requires ann["C"].tags == ["design"] && ann["D"].tags == []
    requires !ann["B"].hasPlay && !ann["C"].hasPlay
    requires Truthy(title) && BuildsTests(testPrefixer)
    ensures var r := AllTests(keys, ann, title, p, testPrefixer, env);
      && r.Ok? && |r.value| == 2
      && GroupOf(r.value[0], "B", "smoke-test", true)
      && GroupOf(r.value[1], "C", "smoke-test", false)
  {
    CombinedFilter(ann, p);
    CombinedSkip(ann, p);
    TwoGroups(keys, ann, title, p, testPrefixer, env, "B", "C");
  }

  /** The keys and annotations of a module titled `foo/bar` with the one untagged story A. */
  lemma OneStory(m: StoryModule, hasPlay: bool)
    requires m == StoryModule(Some("foo/bar"), None, [StoryRecord("A", None, hasPlay)])
    ensures Keys(m.stories) == ["A"] && DistinctKeys(m.stories)
    ensures "A" in Annotations(m) && Annotations(m)["A"] == Annotation(hasPlay, [])
  {
    assert m.stories[0].key == "A";
  }

  /** The group of one untagged story without tag filtering. */
  lemma UnfilteredGroup<S, E>(keys: seq<string>, ann: map<string, Annotation>, title: Option<string>, p: TagPolicy,
                              testPrefixer: TestContext -> TemplateResult<S>, env: Env<S, E>, hasPlay: bool)
    requires p == TagPolicy([], [], []) && keys == ["A"]
    requires "A" in ann && ann["A"] == Annotation(hasPlay, [])
    requires Truthy(title) && BuildsTests(testPrefixer)
    ensures var r := AllTests(keys, ann, title, p, testPrefixer, env);
      && r.Ok? && |r.value| == 1 && GroupOf(r.value[0], "A", if hasPlay then "play-test" else "smoke-test", false)
  {
    KeptKeysStep("A", [], ann, p);
    OneGroup(keys, ann, title, p, testPrefixer, env, "A");
  }

  /** A story with its own play function gets a play test, one without gets a smoke test. */
  lemma PlayFunctionGivesPlayTest<S, E>(m: StoryModule, hasPlay: bool, testPrefixer: TestContext -> TemplateResult<S>, env: Env<S, E>)
    requires m == StoryModule(Some("foo/bar"), None, [StoryRecord("A", None, hasPlay)])
    requires BuildsTests(testPrefixer)
    ensures var r := AllTests(Keys(m.stories), Annotations(m), Some(ExampleTitle(m.title)), TagPolicy([], [], []), testPrefixer, env);
      && r.Ok? && |r.value| == 1 && GroupOf(r.value[0], "A", if hasPlay then "play-test" else "smoke-test", false)
  {
    OneStory(m, hasPlay);
    UnfilteredGroup(Keys(m.stories), Annotations(m), Some(ExampleTitle(m.title)), TagPolicy([], [], []), testPrefixer, env, hasPlay);
  }

  /** The keys and annotations of a module without a title whose one untagged story A has no play function. */
  lemma UntitledStory(m: StoryModule)
    requires m == StoryModule(None, None, [StoryRecord("A", None, false)])
    ensures Keys(m.stories) == ["A"] && DistinctKeys(m.stories)
    ensures "A" in Annotations(m) && Annotations(m)["A"] == Annotation(false, [])
  {
    assert m.stories[0].key == "A";
  }

  /**
   * A module without a title gets the title the configuration derives from
   * its file name, `Example/Header`, and its story A a smoke test under it.
   */
  lemma AutoTitle<S, E>(m: StoryModule, testPrefixer: TestContext -> TemplateResult<S>, env: Env<S, E>)
    requires m == StoryModule(None, None, [StoryRecord("A", None, false)])
    requires BuildsTests(testPrefixer)
    ensures ResolveTitle(m.title, Some(ExampleTitle)) == Some("Example/Header")
    ensures var r := AllTests(Keys(m.stories), Annotations(m), ResolveTitle(m.title, Some(ExampleTitle)), TagPolicy([], [], []),
                              testPrefixer, env);
      && r.Ok? && |r.value| == 1 && GroupOf(r.value[0], "A", "smoke-test", false)
  {
    assert ExampleTitle(None) == "Example/Header";
    UntitledStory(m);
    var p := TagPolicy([], [], []);
    var ann := Annotations(m);
    KeptKeysStep("A", [], ann, p);
    OneGroup(Keys(m.stories), ann, Some("Example/Header"), p, testPrefixer, env, "A");
  }

  /**
   * Including only `play` when the one story has no tags leaves no test, so
   * the output is exactly the skipped no-op placeholder named after the title.
   */
  lemma UnmatchedIncludeGivesPlaceholder<S, E>(m: StoryModule, code: string, clearBody: bool, beforeEachPrefixer: Option<() -> S>,
                                               testPrefixer: TestContext -> TemplateResult<S>, env: Env<S, E>)
    requires m == StoryModule(Some("foo/bar"), None, [StoryRecord("A", None, true)])
    ensures
      var opts := TransformOptions(clearBody, beforeEachPrefixer, testPrefixer, true, Some(ExampleTitle));
      Transform(code, m, opts, TagPolicy(["play"], [], []), env) ==
        Ok(Placeholder("Example/foo/bar"))
  {
    var opts := TransformOptions(clearBody, beforeEachPrefixer, testPrefixer, true, Some(ExampleTitle));
    var p := TagPolicy(["play"], [], []);
    var keys := Keys(m.stories);
    var ann := Annotations(m);
    OneStory(m, true);
    UnmatchedIncludeFilter(ann, p);
    var title := ResolveTitle(m.title, opts.makeTitle);
    assert AllTests(keys, ann, title, p, testPrefixer, env) == Ok([]);
    assert title == Some("Example/foo/bar") by { assert ExampleTitle(m.title) == "Example/foo/bar"; }
    ComposeWithoutTests(code, opts, title, env);
  }
}

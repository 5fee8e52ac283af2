/**
 * The transform from a parsed story module to its test file: which stories
 * get a `describe` group, in which order, and how the output text is put
 * together from the original code, the guarded test block and the no-op
 * placeholder.
 */
module CsfTransform {
  import opened Wrappers
  import opened TagPolicies
  import opened CsfModel
  import opened TestTree

  /** The options a caller passes; `testPrefixer` builds the body of each test. */
  datatype TransformOptions<!S> = TransformOptions(
    clearBody: bool,
    beforeEachPrefixer: Option<() -> S>,
    testPrefixer: TestContext -> TemplateResult<S>,
    insertTestIfEmpty: bool,
    makeTitle: Option<Option<string> -> string>)

  /** `if (title)`: a title is truthy when it is present and not the empty string. */
  predicate Truthy(title: Option<string>)
  {
    title.Some? && title.value != ""
  }

  /** The title the parser reports: `makeTitle` applied to the user title, or the user title itself. */
  function ResolveTitle(userTitle: Option<string>, makeTitle: Option<Option<string> -> string>): Option<string>
  {
    match makeTitle
    case Some(f) => Some(f(userTitle))
    case None => userTitle
  }

  /** `${csf.meta?.title}`: an absent title prints as `undefined`. */
  function TitleText(title: Option<string>): string
  {
    match title
    case Some(t) => t
    case None => "undefined"
  }

  /** `xs` is `ys` with some elements deleted, in the same order. */
  ghost predicate Subsequence<T>(xs: seq<T>, ys: seq<T>)
    decreases |ys|
  {
    || |xs| == 0
    || (&& |ys| > 0
        && ((xs[0] == ys[0] && Subsequence(xs[1..], ys[1..])) || Subsequence(xs, ys[1..])))
  }

  /** Two elements of a subsequence occur in the same order in the original sequence. */
  lemma {:induction false} SubsequenceKeepsOrder<T>(xs: seq<T>, ys: seq<T>, a: nat, b: nat)
    requires Subsequence(xs, ys) && a < b < |xs|
    ensures exists i, j :: 0 <= i < j < |ys| && ys[i] == xs[a] && ys[j] == xs[b]
    decreases |ys|
  {
    if xs[0] == ys[0] && Subsequence(xs[1..], ys[1..]) {
      if a == 0 {
        var j := SubsequenceIndex(xs[1..], ys[1..], b - 1);
        assert ys[0] == xs[a] && ys[j + 1] == xs[b];
      } else {
        SubsequenceKeepsOrder(xs[1..], ys[1..], a - 1, b - 1);
        var i, j :| 0 <= i < j < |ys[1..]| && ys[1..][i] == xs[1..][a - 1] && ys[1..][j] == xs[1..][b - 1];
        assert ys[i + 1] == xs[a] && ys[j + 1] == xs[b];
      }
    } else {
      SubsequenceKeepsOrder(xs, ys[1..], a, b);
      var i, j :| 0 <= i < j < |ys[1..]| && ys[1..][i] == xs[a] && ys[1..][j] == xs[b];
      assert ys[i + 1] == xs[a] && ys[j + 1] == xs[b];
    }
  }

  /** Every element of a subsequence occurs in the original sequence. */
  lemma {:induction false} SubsequenceIndex<T>(xs: seq<T>, ys: seq<T>, a: nat) returns (i: nat)
    requires Subsequence(xs, ys) && a < |xs|
    ensures i < |ys| && ys[i] == xs[a]
    decreases |ys|
  {
    if xs[0] == ys[0] && Subsequence(xs[1..], ys[1..]) {
      if a == 0 {
        i := 0;
      } else {
        i := SubsequenceIndex(xs[1..], ys[1..], a - 1);
        i := i + 1;
      }
    } else {
      i := SubsequenceIndex(xs, ys[1..], a);
      i := i + 1;
    }
  }

  /**
   * The first `filter`: the export keys whose stories pass the include and
   * exclude filters, in export order.
   */
  function KeptKeys(keys: seq<string>, storyAnnotations: map<string, Annotation>, p: TagPolicy): (kept: seq<string>)
    requires forall k :: k in keys ==> k in storyAnnotations
    ensures forall k :: k in kept <==> k in keys && IsKept(storyAnnotations[k].tags, p)
  {
    if |keys| == 0 then []
    else
      var rest := KeptKeys(keys[1..], storyAnnotations, p);
      if IsKept(storyAnnotations[keys[0]].tags, p) then [keys[0]] + rest else rest
  }

  /** The filter only deletes keys: the kept keys are a subsequence of the keys. */
  lemma {:induction false} KeptKeysIsSubsequence(keys: seq<string>, storyAnnotations: map<string, Annotation>, p: TagPolicy)
    requires forall k :: k in keys ==> k in storyAnnotations
    ensures Subsequence(KeptKeys(keys, storyAnnotations, p), keys)
  {
    if |keys| > 0 {
      var rest := KeptKeys(keys[1..], storyAnnotations, p);
      KeptKeysIsSubsequence(keys[1..], storyAnnotations, p);
      if IsKept(storyAnnotations[keys[0]].tags, p) {
        assert ([keys[0]] + rest)[1..] == rest;
      }
    }
  }

  /**
   * The `map` callback for one kept story: its `describe(key)` group holding
   * one case, or nothing when the title is falsy.
   */
  function StoryGroup<S, E>(key: string, a: Annotation, title: Option<string>, p: TagPolicy,
                            testPrefixer: TestContext -> TemplateResult<S>, env: Env<S, E>)
    : (r: Result<Option<Node<E>>, TransformError>)
    ensures !Truthy(title) ==> r == Ok(None)
    ensures Truthy(title) ==>
      var name := env.storyNameFromExport(key);
      var stmts := MakeArray(testPrefixer(TestContext(key, name, title.value, env.toId(title.value, name))));
      && (r.Err? <==> |stmts| < 2)
      && (r.Err? ==> r.error == NoTestStatement(key))
      && (r.Ok? ==> r.value == Some(Describe(key, [It(if a.hasPlay then "play-test" else "smoke-test",
                                                       ShouldSkip(a.tags, p),
                                                       env.expressionOf(stmts[1]))])))
  {
    var shouldSkip := ShouldSkip(a.tags, p);
    var tests := if Truthy(title) then MakePlayTest(key, title.value, a.hasPlay, testPrefixer, shouldSkip, env) else Ok([]);
    match tests
    case Err(e) => Err(e)
    case Ok(ts) => if |ts| > 0 then Ok(Some(MakeDescribe(key, ts, None))) else Ok(None)
  }

  /** The `map` over the kept keys, which stops at the first story whose callback throws. */
  function MapGroups<S, E>(kept: seq<string>, storyAnnotations: map<string, Annotation>, title: Option<string>, p: TagPolicy,
                           testPrefixer: TestContext -> TemplateResult<S>, env: Env<S, E>)
    : (r: Result<seq<Option<Node<E>>>, TransformError>)
    requires forall k :: k in kept ==> k in storyAnnotations
    ensures r.Ok? ==> |r.value| == |kept| && forall j :: 0 <= j < |kept| ==>
      StoryGroup(kept[j], storyAnnotations[kept[j]], title, p, testPrefixer, env) == Ok(r.value[j])
    ensures r.Err? ==> exists j :: (0 <= j < |kept| &&
      StoryGroup(kept[j], storyAnnotations[kept[j]], title, p, testPrefixer, env) == Err(r.error) &&
      forall i :: 0 <= i < j ==> StoryGroup(kept[i], storyAnnotations[kept[i]], title, p, testPrefixer, env).Ok?)
  {
    if |kept| == 0 then Ok([])
    else
      match StoryGroup(kept[0], storyAnnotations[kept[0]], title, p, testPrefixer, env)
      case Err(e) => Err(e)
      case Ok(g) =>
        match MapGroups(kept[1..], storyAnnotations, title, p, testPrefixer, env)
        case Err(e) =>
          ghost var j :| 0 <= j < |kept[1..]|
            && StoryGroup(kept[1..][j], storyAnnotations[kept[1..][j]], title, p, testPrefixer, env) == Err(e)
            && forall i :: 0 <= i < j ==> StoryGroup(kept[1..][i], storyAnnotations[kept[1..][i]], title, p, testPrefixer, env).Ok?;
          assert StoryGroup(kept[j + 1], storyAnnotations[kept[j + 1]], title, p, testPrefixer, env) == Err(e);
          assert forall i :: 0 <= i < j + 1 ==>
            StoryGroup(kept[i], storyAnnotations[kept[i]], title, p, testPrefixer, env).Ok? by {
            forall i | 0 <= i < j + 1
              ensures StoryGroup(kept[i], storyAnnotations[kept[i]], title, p, testPrefixer, env).Ok?
            {
              if i > 0 {
                assert kept[i] == kept[1..][i - 1];
              }
            }
          }
          Err(e)
        case Ok(gs) =>
          var r := [g] + gs;
          assert forall j :: 0 <= j < |kept| ==>
            StoryGroup(kept[j], storyAnnotations[kept[j]], title, p, testPrefixer, env) == Ok(r[j]) by {
            forall j | 0 <= j < |kept|
              ensures StoryGroup(kept[j], storyAnnotations[kept[j]], title, p, testPrefixer, env) == Ok(r[j])
            {
              if j > 0 {
                assert kept[j] == kept[1..][j - 1] && r[j] == gs[j - 1];
              }
            }
          }
          Ok(r)
  }

  /** The final `filter(Boolean)`: drops the stories that produced no group. */
  function Compact<E>(gs: seq<Option<Node<E>>>): (r: seq<Node<E>>)
    ensures |r| <= |gs|
    ensures forall i :: 0 <= i < |r| ==> Some(r[i]) in gs
    ensures forall j :: 0 <= j < |gs| && gs[j].Some? ==> gs[j].value in r
    ensures (forall j :: 0 <= j < |gs| ==> gs[j].Some?) ==> |r| == |gs| && forall j :: 0 <= j < |gs| ==> r[j] == gs[j].value
    ensures (forall j :: 0 <= j < |gs| ==> gs[j].None?) ==> r == []
  {
    if |gs| == 0 then []
    else
      var rest := Compact(gs[1..]);
      if gs[0].Some? then [gs[0].value] + rest else rest
  }

  /** The entries of `xs`, each as a present value. */
  function AsPresent<T>(xs: seq<T>): (ys: seq<Option<T>>)
    ensures |ys| == |xs| && forall i :: 0 <= i < |xs| ==> ys[i] == Some(xs[i])
  {
    seq(|xs|, i requires 0 <= i < |xs| => Some(xs[i]))
  }

  /** `filter(Boolean)` only deletes entries: the kept groups appear in `gs` in the same order. */
  lemma {:induction false} CompactIsSubsequence<E>(gs: seq<Option<Node<E>>>)
    ensures Subsequence(AsPresent(Compact(gs)), gs)
  {
    if |gs| > 0 {
      var rest := Compact(gs[1..]);
      CompactIsSubsequence(gs[1..]);
      if gs[0].Some? {
        assert AsPresent([gs[0].value] + rest)[1..] == AsPresent(rest);
      }
    }
  }

  /** `allTests`: one `describe(key)` group per kept story, unless the title is falsy. */
  function AllTests<S, E>(keys: seq<string>, storyAnnotations: map<string, Annotation>, title: Option<string>, p: TagPolicy,
                          testPrefixer: TestContext -> TemplateResult<S>, env: Env<S, E>): Result<seq<Node<E>>, TransformError>
    requires forall k :: k in keys ==> k in storyAnnotations
  {
    match MapGroups(KeptKeys(keys, storyAnnotations, p), storyAnnotations, title, p, testPrefixer, env)
    case Err(e) => Err(e)
    case Ok(gs) => Ok(Compact(gs))
  }

  /** The original code and a newline, unless the body is cleared. */
  function Prefix(code: string, clearBody: bool): string
  {
    if clearBody then "" else code + "\n"
  }

  /** The generated block, guarded so that it runs only when the module is not the program's entry point. */
  function GuardedBlock(prefix: string, describeCode: string): string
  {
    prefix + "\nif (!require.main) {\n" + describeCode + "\n}"
  }

  /** The disabled no-op test that stands in for a module without tests. */
  function Placeholder(titleText: string): string
  {
    "describe.skip('" + titleText + "', () => { it('no-op', () => {}) });"
  }

  /** The `describe(title)` of the whole module: the `beforeEach` hook when there is a file prefixer, then the groups. */
  function ModuleDescribe<S, E>(title: Option<string>, tests: seq<Node<E>>, opts: TransformOptions<S>, env: Env<S, E>): Node<E>
  {
    Describe(TitleText(title), Hooks(opts, env) + tests)
  }

  /** The output text, given the groups built for the module (or the error building them threw). */
  function Compose<S, E>(code: string, opts: TransformOptions<S>, title: Option<string>,
                         allTests: Result<seq<Node<E>>, TransformError>, env: Env<S, E>): Result<string, TransformError>
  {
    match allTests
    case Err(e) => Err(e)
    case Ok(tests) =>
      var prefix := Prefix(code, opts.clearBody);
      if |tests| > 0 then Ok(GuardedBlock(prefix, env.generate(ModuleDescribe(title, tests, opts, env))))
      else if opts.insertTestIfEmpty then Ok(Placeholder(TitleText(title)))
      else Ok(prefix)
  }

  /** What `transformCsf` returns for `code`, parsed as `m`, under the tag policy `p`. */
  function Transform<S, E>(code: string, m: StoryModule, opts: TransformOptions<S>, p: TagPolicy, env: Env<S, E>)
    : Result<string, TransformError>
    requires DistinctKeys(m.stories)
  {
    var title := ResolveTitle(m.title, opts.makeTitle);
    Compose(code, opts, title, AllTests(Keys(m.stories), Annotations(m), title, p, opts.testPrefixer, env), env)
  }

  /**
   * `transformCsf`: builds the annotation dictionary, the list of story
   * groups, and then the output text step by step.
   */
  method TransformCsf<S, E>(code: string, m: StoryModule, opts: TransformOptions<S>, p: TagPolicy, env: Env<S, E>)
    returns (r: Result<string, TransformError>)
    requires DistinctKeys(m.stories)
    ensures r == Transform(code, m, opts, p, env)
  {
    var storyExports := Keys(m.stories);
    var title := ResolveTitle(m.title, opts.makeTitle);
    var storyAnnotations := BuildStoryAnnotations(m);
    var allTests := AllTests(storyExports, storyAnnotations, title, p, opts.testPrefixer, env);
    if allTests.Err? {
      return Err(allTests.error);
    }
    var result := WriteOutput(code, opts, title, allTests.value, env);
    return Ok(result);
  }

  /**
   * The second half of `transformCsf`: the output text, built step by step
   * from the source, the groups and the options.
   */
  method WriteOutput<S, E>(code: string, opts: TransformOptions<S>, title: Option<string>, tests: seq<Node<E>>, env: Env<S, E>)
    returns (result: string)
    ensures Ok(result) == Compose(code, opts, title, Ok(tests), env)
  {
    result := "";
    if !opts.clearBody {
      result := result + code + "\n";
    }
    assert result == Prefix(code, opts.clearBody);
    if |tests| > 0 {
      var beforeEachBlock := None;
      if opts.beforeEachPrefixer.Some? {
        beforeEachBlock := Some(MakeBeforeEach(opts.beforeEachPrefixer.value, env));
      }
      var describe := MakeDescribe(TitleText(title), tests, beforeEachBlock);
      assert describe == ModuleDescribe(title, tests, opts, env) by {
        if beforeEachBlock.None? {
          assert Hooks(opts, env) + tests == tests;
        }
      }
      result := result + "\nif (!require.main) {\n" + env.generate(describe) + "\n}";
    } else if opts.insertTestIfEmpty {
      result := Placeholder(TitleText(title));
    }
  }

  /** Whether a story is kept, and so the kept keys, does not depend on the skip tags. */
  lemma {:induction false} SkipTagsDoNotChangeKeptKeys(keys: seq<string>, storyAnnotations: map<string, Annotation>,
                                                       p: TagPolicy, skipTags: seq<string>)
    requires forall k :: k in keys ==> k in storyAnnotations
    ensures KeptKeys(keys, storyAnnotations, p) == KeptKeys(keys, storyAnnotations, p.(skipTags := skipTags))
  {
    if |keys| > 0 {
      SkipTagsDoNotChangeKeptKeys(keys[1..], storyAnnotations, p, skipTags);
      SkipDoesNotAffectKept(storyAnnotations[keys[0]].tags, p, skipTags);
    }
  }

  /** The kept keys of a module: a story's key is kept exactly when its effective tags pass the filters, in export order. */
  lemma KeptKeysOfModule(m: StoryModule, p: TagPolicy)
    requires DistinctKeys(m.stories)
    ensures Subsequence(KeptKeys(Keys(m.stories), Annotations(m), p), Keys(m.stories))
    ensures forall i :: 0 <= i < |m.stories| ==>
      (m.stories[i].key in KeptKeys(Keys(m.stories), Annotations(m), p) <==>
       IsKept(EffectiveTags(m.stories[i].tags, m.metaTags), p))
    ensures forall k :: k in KeptKeys(Keys(m.stories), Annotations(m), p) ==> k in Keys(m.stories)
  {
    KeptKeysIsSubsequence(Keys(m.stories), Annotations(m), p);
  }

  /** Without a truthy title no story yields a group, whatever the tag policy. */
  lemma NoTitleNoTests<S, E>(keys: seq<string>, storyAnnotations: map<string, Annotation>, title: Option<string>, p: TagPolicy,
                             testPrefixer: TestContext -> TemplateResult<S>, env: Env<S, E>)
    requires forall k :: k in keys ==> k in storyAnnotations
    requires !Truthy(title)
    ensures AllTests(keys, storyAnnotations, title, p, testPrefixer, env) == Ok([])
  {
  }

  /**
   * With a truthy title, the groups are those of the kept keys, one per key
   * and in the same order; each is labelled with its export key and holds
   * exactly one case, a play test exactly when the story has its own play
   * function, skipped exactly when the story carries a skip tag, whose body
   * the test prefixer built from the context (key, storyNameFromExport(key),
   * title, toId(title, name)).
   */
  lemma GroupsOfKeptKeys<S, E>(keys: seq<string>, storyAnnotations: map<string, Annotation>, title: Option<string>, p: TagPolicy,
                               testPrefixer: TestContext -> TemplateResult<S>, env: Env<S, E>, tests: seq<Node<E>>)
    requires forall k :: k in keys ==> k in storyAnnotations
    requires Truthy(title)
    requires AllTests(keys, storyAnnotations, title, p, testPrefixer, env) == Ok(tests)
    ensures |tests| == |KeptKeys(keys, storyAnnotations, p)|
    ensures forall j :: 0 <= j < |tests| ==>
      var key := KeptKeys(keys, storyAnnotations, p)[j];
      var a := storyAnnotations[key];
      var name := env.storyNameFromExport(key);
      var stmts := MakeArray(testPrefixer(TestContext(key, name, title.value, env.toId(title.value, name))));
      && |stmts| >= 2
      && tests[j] == Describe(key, [It(if a.hasPlay then "play-test" else "smoke-test", ShouldSkip(a.tags, p),
                                       env.expressionOf(stmts[1]))])
  {
    var kept := KeptKeys(keys, storyAnnotations, p);
    var gs := MapGroups(kept, storyAnnotations, title, p, testPrefixer, env).value;
    assert forall j :: 0 <= j < |gs| ==> gs[j].Some?;
  }

  /**
   * With a truthy title the transform throws exactly when the test prefixer
   * gives fewer than two statements for some kept story; it then reports the
   * first such story in export order.
   */
  lemma AllTestsFailIff<S, E>(keys: seq<string>, storyAnnotations: map<string, Annotation>, title: Option<string>, p: TagPolicy,
                              testPrefixer: TestContext -> TemplateResult<S>, env: Env<S, E>)
    requires forall k :: k in keys ==> k in storyAnnotations
    ensures AllTests(keys, storyAnnotations, title, p, testPrefixer, env).Err? <==>
      && Truthy(title)
      && exists j :: 0 <= j < |KeptKeys(keys, storyAnnotations, p)| &&
           var key := KeptKeys(keys, storyAnnotations, p)[j];
           |MakeArray(testPrefixer(MakeContext(key, title.value, env)))| < 2
    ensures AllTests(keys, storyAnnotations, title, p, testPrefixer, env).Err? ==>
      exists j :: 0 <= j < |KeptKeys(keys, storyAnnotations, p)| &&
        var key := KeptKeys(keys, storyAnnotations, p)[j];
        && AllTests(keys, storyAnnotations, title, p, testPrefixer, env).error == NoTestStatement(key)
        && forall i :: 0 <= i < j ==>
             var earlier := KeptKeys(keys, storyAnnotations, p)[i];
             |MakeArray(testPrefixer(MakeContext(earlier, title.value, env)))| >= 2
  {
    var kept := KeptKeys(keys, storyAnnotations, p);
    var r := MapGroups(kept, storyAnnotations, title, p, testPrefixer, env);
    if !Truthy(title) {
      NoTitleNoTests(keys, storyAnnotations, title, p, testPrefixer, env);
    } else if r.Ok? {
      forall j | 0 <= j < |kept|
        ensures |MakeArray(testPrefixer(MakeContext(kept[j], title.value, env)))| >= 2
      {
        assert StoryGroup(kept[j], storyAnnotations[kept[j]], title, p, testPrefixer, env) == Ok(r.value[j]);
      }
    }
  }

  /** The groups, seen from their labels: group `j` is that of the `j`-th kept key. */
  lemma GroupLabels<S, E>(keys: seq<string>, storyAnnotations: map<string, Annotation>, title: Option<string>, p: TagPolicy,
                          testPrefixer: TestContext -> TemplateResult<S>, env: Env<S, E>, tests: seq<Node<E>>)
    requires forall k :: k in keys ==> k in storyAnnotations
    requires Truthy(title)
    requires AllTests(keys, storyAnnotations, title, p, testPrefixer, env) == Ok(tests)
    ensures |tests| == |KeptKeys(keys, storyAnnotations, p)|
    ensures forall j :: 0 <= j < |tests| ==>
      var key := KeptKeys(keys, storyAnnotations, p)[j];
      && tests[j].Describe? && tests[j].name == key && |tests[j].body| == 1 && tests[j].body[0].It?
      && tests[j].body[0].name == (if storyAnnotations[key].hasPlay then "play-test" else "smoke-test")
      && tests[j].body[0].skip == ShouldSkip(storyAnnotations[key].tags, p)
  {
    GroupsOfKeptKeys(keys, storyAnnotations, title, p, testPrefixer, env, tests);
  }

  /**
   * With a truthy title and a test prefixer that always gives a second
   * statement, the transform does not throw, and its groups carry exactly the
   * kept keys, in order, each with the case its annotation calls for.
   */
  lemma GroupsWhenPrefixerBuildsTests<S, E>(keys: seq<string>, storyAnnotations: map<string, Annotation>, title: Option<string>,
                                            p: TagPolicy, testPrefixer: TestContext -> TemplateResult<S>, env: Env<S, E>)
    requires forall k :: k in keys ==> k in storyAnnotations
    requires Truthy(title)
    requires forall c :: |MakeArray(testPrefixer(c))| >= 2
    ensures AllTests(keys, storyAnnotations, title, p, testPrefixer, env).Ok?
    ensures var tests := AllTests(keys, storyAnnotations, title, p, testPrefixer, env).value;
      && |tests| == |KeptKeys(keys, storyAnnotations, p)|
      && forall j :: 0 <= j < |tests| ==>
           var key := KeptKeys(keys, storyAnnotations, p)[j];
           && tests[j].Describe? && tests[j].name == key && |tests[j].body| == 1 && tests[j].body[0].It?
           && tests[j].body[0].name == (if storyAnnotations[key].hasPlay then "play-test" else "smoke-test")
           && tests[j].body[0].skip == ShouldSkip(storyAnnotations[key].tags, p)
  {
    AllTestsFailIff(keys, storyAnnotations, title, p, testPrefixer, env);
    var r := AllTests(keys, storyAnnotations, title, p, testPrefixer, env);
    GroupLabels(keys, storyAnnotations, title, p, testPrefixer, env, r.value);
  }

  /** A story of the module gets a group exactly when its effective tags pass the filters. */
  lemma StoryGetsGroupIff<S, E>(m: StoryModule, title: Option<string>, p: TagPolicy,
                                testPrefixer: TestContext -> TemplateResult<S>, env: Env<S, E>, tests: seq<Node<E>>, i: nat)
    requires DistinctKeys(m.stories)
    requires Truthy(title)
    requires AllTests(Keys(m.stories), Annotations(m), title, p, testPrefixer, env) == Ok(tests)
    requires i < |m.stories|
    ensures IsKept(EffectiveTags(m.stories[i].tags, m.metaTags), p) <==>
      exists j :: 0 <= j < |tests| && tests[j].Describe? && tests[j].name == m.stories[i].key
  {
    var kept := KeptKeys(Keys(m.stories), Annotations(m), p);
    GroupLabels(Keys(m.stories), Annotations(m), title, p, testPrefixer, env, tests);
    KeptKeysOfModule(m, p);
    if IsKept(EffectiveTags(m.stories[i].tags, m.metaTags), p) {
      var j :| 0 <= j < |kept| && kept[j] == m.stories[i].key;
      assert tests[j].name == m.stories[i].key;
    }
  }

  /**
   * The group of a story of the module holds one case: a play test exactly
   * when the story has its own play function, skipped exactly when its
   * effective tags meet the skip tags.
   */
  lemma GroupOfStory<S, E>(m: StoryModule, title: Option<string>, p: TagPolicy,
                           testPrefixer: TestContext -> TemplateResult<S>, env: Env<S, E>, tests: seq<Node<E>>, i: nat, j: nat)
    requires DistinctKeys(m.stories)
    requires Truthy(title)
    requires AllTests(Keys(m.stories), Annotations(m), title, p, testPrefixer, env) == Ok(tests)
    requires i < |m.stories| && j < |tests| && tests[j].Describe? && tests[j].name == m.stories[i].key
    ensures |tests[j].body| == 1 && tests[j].body[0].It?
    ensures tests[j].body[0].name == (if m.stories[i].hasPlay then "play-test" else "smoke-test")
    ensures tests[j].body[0].skip == ShouldSkip(EffectiveTags(m.stories[i].tags, m.metaTags), p)
  {
    GroupLabels(Keys(m.stories), Annotations(m), title, p, testPrefixer, env, tests);
    assert Annotations(m)[m.stories[i].key] == AnnotationOf(m.stories[i], m.metaTags);
  }

  /** The groups of two kept keys come in the keys' order: filtering never reorders. */
  lemma GroupsInKeyOrder<S, E>(keys: seq<string>, storyAnnotations: map<string, Annotation>, title: Option<string>, p: TagPolicy,
                               testPrefixer: TestContext -> TemplateResult<S>, env: Env<S, E>, tests: seq<Node<E>>,
                               j1: nat, j2: nat)
    requires forall k :: k in keys ==> k in storyAnnotations
    requires Truthy(title)
    requires AllTests(keys, storyAnnotations, title, p, testPrefixer, env) == Ok(tests)
    requires j1 < j2 < |tests|
    ensures tests[j1].Describe? && tests[j2].Describe?
    ensures exists i1, i2 :: 0 <= i1 < i2 < |keys| && tests[j1].name == keys[i1] && tests[j2].name == keys[i2]
  {
    var kept := KeptKeys(keys, storyAnnotations, p);
    GroupLabels(keys, storyAnnotations, title, p, testPrefixer, env, tests);
    KeptKeysIsSubsequence(keys, storyAnnotations, p);
    SubsequenceKeepsOrder(kept, keys, j1, j2);
  }

  /** The groups of two stories of the module come in the stories' export order. */
  lemma {:induction false} GroupsInExportOrder<S, E>(m: StoryModule, title: Option<string>, p: TagPolicy,
                                  testPrefixer: TestContext -> TemplateResult<S>, env: Env<S, E>, tests: seq<Node<E>>,
                                  j1: nat, j2: nat)
    requires DistinctKeys(m.stories)
    requires Truthy(title)
    requires AllTests(Keys(m.stories), Annotations(m), title, p, testPrefixer, env) == Ok(tests)
    requires j1 < j2 < |tests|
    ensures tests[j1].Describe? && tests[j2].Describe?
    ensures exists i1, i2 :: 0 <= i1 < i2 < |m.stories| && tests[j1].name == m.stories[i1].key && tests[j2].name == m.stories[i2].key
  {
    GroupsInKeyOrder(Keys(m.stories), Annotations(m), title, p, testPrefixer, env, tests, j1, j2);
    KeysInExportOrder(m.stories, tests[j1].name, tests[j2].name);
  }

  /** The `beforeEach` hook the module's `describe` opens with, if any. */
  function Hooks<S, E>(opts: TransformOptions<S>, env: Env<S, E>): seq<Node<E>>
  {
    if opts.beforeEachPrefixer.Some? then [MakeBeforeEach(opts.beforeEachPrefixer.value, env)] else []
  }

  /**
   * With some groups, the output is the prefix followed by one
   * `describe(title)`, guarded by `if (!require.main)`, whose body is the
   * `beforeEach` hook (when there is a file prefixer) and then the groups.
   */
  lemma ComposeWithTests<S, E>(code: string, opts: TransformOptions<S>, title: Option<string>, env: Env<S, E>,
                               tests: seq<Node<E>>)
    requires |tests| > 0
    ensures Compose(code, opts, title, Ok(tests), env) ==
      Ok(GuardedBlock(Prefix(code, opts.clearBody), env.generate(Describe(TitleText(title), Hooks(opts, env) + tests))))
  {
    if opts.beforeEachPrefixer.None? {
      assert Hooks(opts, env) + tests == tests;
    }
  }

  /**
   * With no group, the output is exactly the no-op placeholder if one is
   * asked for, whether or not the body is cleared, and otherwise the prefix.
   */
  lemma ComposeWithoutTests<S, E>(code: string, opts: TransformOptions<S>, title: Option<string>, env: Env<S, E>)
    ensures opts.insertTestIfEmpty ==>
      Compose(code, opts, title, Ok([]), env) == Ok(Placeholder(TitleText(title)))
    ensures !opts.insertTestIfEmpty ==>
      Compose(code, opts, title, Ok([]), env) == Ok(if opts.clearBody then "" else code + "\n")
  {
  }

  /**
   * Unless the placeholder replaces it, the output starts with the original
   * code and a newline when the body is kept; with the body cleared it is
   * empty or starts with the guard.
   */
  lemma SourceKeptUnlessCleared<S, E>(code: string, opts: TransformOptions<S>, title: Option<string>, env: Env<S, E>,
                                      tests: seq<Node<E>>, out: string)
    requires Compose(code, opts, title, Ok(tests), env) == Ok(out)
    requires |tests| > 0 || !opts.insertTestIfEmpty
    ensures !opts.clearBody ==> code + "\n" <= out
    ensures opts.clearBody ==> out == "" || "\nif (!require.main) {\n" <= out
  {
    var prefix := Prefix(code, opts.clearBody);
    if |tests| > 0 {
      var describeCode := env.generate(ModuleDescribe(title, tests, opts, env));
      assert out == prefix + ("\nif (!require.main) {\n" + describeCode + "\n}");
    } else {
      assert out == prefix;
    }
  }

  /**
   * When some story of the module yields a group, its title is truthy and the
   * output is the guarded `describe(title)` of the hook and the groups.
   */
  lemma OutputWithTests<S, E>(code: string, m: StoryModule, opts: TransformOptions<S>, p: TagPolicy, env: Env<S, E>,
                              tests: seq<Node<E>>)
    requires DistinctKeys(m.stories)
    requires AllTests(Keys(m.stories), Annotations(m), ResolveTitle(m.title, opts.makeTitle), p, opts.testPrefixer, env) == Ok(tests)
    requires |tests| > 0
    ensures Truthy(ResolveTitle(m.title, opts.makeTitle))
    ensures Transform(code, m, opts, p, env) ==
      Ok(GuardedBlock(Prefix(code, opts.clearBody),
                      env.generate(Describe(ResolveTitle(m.title, opts.makeTitle).value, Hooks(opts, env) + tests))))
  {
    var title := ResolveTitle(m.title, opts.makeTitle);
    if !Truthy(title) {
      NoTitleNoTests(Keys(m.stories), Annotations(m), title, p, opts.testPrefixer, env);
    }
    ComposeWithTests(code, opts, title, env, tests);
  }

  /**
   * A module without a truthy title gets no tests whatever the tag policy:
   * the output is the placeholder (printing `undefined` for an absent title)
   * or the prefix.
   */
  lemma OutputWithoutTitle<S, E>(code: string, m: StoryModule, opts: TransformOptions<S>, p: TagPolicy, env: Env<S, E>)
    requires DistinctKeys(m.stories)
    requires !Truthy(ResolveTitle(m.title, opts.makeTitle))
    ensures Transform(code, m, opts, p, env) ==
      Ok(if opts.insertTestIfEmpty then Placeholder(TitleText(ResolveTitle(m.title, opts.makeTitle)))
         else Prefix(code, opts.clearBody))
    ensures ResolveTitle(m.title, opts.makeTitle).None? && opts.insertTestIfEmpty ==>
      Transform(code, m, opts, p, env) == Ok(Placeholder("undefined"))
  {
    var title := ResolveTitle(m.title, opts.makeTitle);
    NoTitleNoTests(Keys(m.stories), Annotations(m), title, p, opts.testPrefixer, env);
    ComposeWithoutTests(code, opts, title, env);
  }

  /** The transform throws exactly when building the groups throws, with the same error. */
  lemma TransformFailsIff<S, E>(code: string, m: StoryModule, opts: TransformOptions<S>, p: TagPolicy, env: Env<S, E>)
    requires DistinctKeys(m.stories)
    ensures var allTests := AllTests(Keys(m.stories), Annotations(m), ResolveTitle(m.title, opts.makeTitle), p,
                                     opts.testPrefixer, env);
      && (Transform(code, m, opts, p, env).Err? <==> allTests.Err?)
      && (allTests.Err? ==> Transform(code, m, opts, p, env) == Err(allTests.error))
  {
  }
}

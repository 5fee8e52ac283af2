# CSF-to-test transform, modelled in Dafny

The test runner turns a Storybook story file, written in Component Story
Format (CSF), into a test file. `transformCsf` takes the source text of a
story module and returns that text, optionally with its body cleared,
followed by a guarded `describe(title)` block. The block holds one
`describe(storyKey)` group per story that passes the tag filters. Each group
holds one `it` case: `play-test` when the story has its own play function,
`smoke-test` otherwise. The case is `it.skip` when the story carries a skip
tag. When no story yields a group, the output is either the (possibly
cleared) source or, on request, a placeholder `describe.skip(...)` with a
no-op test.

The model is split by concern:

- `wrappers.dfy` (`Wrappers`): `Option` and `Result`.
- `tags.dfy` (`TagPolicies`): the three tag lists and the include, exclude
  and skip rules. It also holds the rule that picks a story's effective tags:
  its own list, else the module's default list, else none.
- `csf_model.dfy` (`CsfModel`): the parsed story module (title, default tags,
  stories in export order) and the annotation dictionary. The `reduce` that
  fills the dictionary is the loop method `BuildStoryAnnotations`. It is
  proved equal to the function `Annotations`.
- `test_tree.dfy` (`TestTree`): the generated statement tree, the context
  handed to the test prefixer, and `prefixFunction` with its error path. The
  builders `makePlayTest`, `makeDescribe`, `makeBeforeEach` and `makeArray`
  are here too.
- `csf_transform.dfy` (`CsfTransform`): the pipeline behind `allTests`:
  - the `filter` becomes `KeptKeys`;
  - the `map` callback becomes `StoryGroup` and the `map` itself `MapGroups`;
  - `filter(Boolean)` becomes `Compact`.

  The file also holds the output text (`Compose`, `Transform`), the
  step-by-step method `TransformCsf` proved against `Transform`, and the
  lemmas about all of these.
- `scenarios.dfy` (`Scenarios`): the snapshot cases of the Playwright
  transform tests, each stated as a lemma over a concrete story module.

Modelling choices:

- Babel statements and expressions are type parameters the model never looks
  inside.
- Four pieces of foreign code are function-valued fields of `Env`:
  - `storyNameFromExport` and `toId` from the story format library;
  - reading `.expression` off a statement;
  - the code generator.
- The test prefixer, the file prefixer and `makeTitle` are function values in
  `TransformOptions`.
- `prefixFunction` reads `result[1].expression`. When the test prefixer
  yields fewer than two statements this throws a `TypeError` in JavaScript.
  The model returns `Err(NoTestStatement(key))` instead, and the error
  reaches the output of `Transform` unchanged.
- `if (title)` is JavaScript truthiness: the title is present and non-empty
  (`Truthy`). A missing title prints as `undefined` inside the placeholder
  (`TitleText`).
- The tag lists that `getTagOptions` reads from the environment are the
  parameter `p: TagPolicy`.

Three details of the code are easy to misread:

- A story that declares an empty tag list does not inherit the module's tags.
  The code uses `||`, and an empty array is truthy. Only an absent list falls
  back.
- Each story group is labelled with the story's export key, not its display
  name.
- The placeholder replaces the output; it is not appended to the source.

## Model

| member | source | states |
|---|---|---|
| TagPolicies.SomeIncluded | src/csf/transformCsf.ts:126-128 | `includeTags.some(tag => tags.includes(tag))` holds exactly when some listed tag is among the story's tags |
| TagPolicies.NoneIncluded | src/csf/transformCsf.ts:131 | `excludeTags.every(tag => !tags.includes(tag))` holds exactly when no listed tag is among the story's tags |
| TagPolicies.IsIncluded | src/csf/transformCsf.ts:125-128 | a story passes the include filter iff no include tag is given or it carries one of them |
| TagPolicies.IsNotExcluded | src/csf/transformCsf.ts:130-131 | a story passes the exclude filter iff it carries none of the exclude tags |
| TagPolicies.IsKept | src/csf/transformCsf.ts:124-134 | the filter keeps a story iff both conditions hold, stated directly over the tag lists |
| TagPolicies.ShouldSkip | src/csf/transformCsf.ts:137 | a story is skipped iff it carries one of the skip tags |
| TagPolicies.EffectiveTagsFallback | src/csf/transformCsf.ts:117 | a story's effective tags are its own list if it has one, else the module's, else empty |
| TagPolicies.ExplicitEmptyTagsDoNotInherit | src/csf/transformCsf.ts:117 | an explicitly empty tag list stays empty: such a story is kept only when no include tag is given and is never skipped |
| TagPolicies.ExcludeWins | src/csf/transformCsf.ts:126-133 | a tag that is both included and excluded drops the story |
| TagPolicies.SkipDoesNotAffectKept | src/csf/transformCsf.ts:133-137 | whether a story is kept does not depend on the skip tags |
| CsfModel.Keys | src/csf/transformCsf.ts:106 | the story exports are the stories' keys, one per story, in export order |
| CsfModel.Annotations | src/csf/transformCsf.ts:109-121 | the dictionary maps every export key, and nothing else, to that story's play flag and effective tags |
| CsfModel.BuildStoryAnnotations | src/csf/transformCsf.ts:109-121 | the `reduce` loop (fresh entry, play flag, tags) yields exactly the dictionary `Annotations` describes |
| TestTree.PrefixFunction | src/csf/transformCsf.ts:31-43 | calls the test prefixer with the story's context (export key, display name, title, id from `toId(title, name)`); succeeds iff it yields at least two statements, and then returns the second one's expression; otherwise fails naming the story |
| CsfTransform.KeptKeys | src/csf/transformCsf.ts:123-134 | a key survives the filter iff it is one of the exports and its effective tags pass include and exclude |
| CsfTransform.KeptKeysIsSubsequence | src/csf/transformCsf.ts:123-134 | the filter neither reorders nor repeats keys: its result is a subsequence of the exports |
| CsfTransform.StoryGroup | src/csf/transformCsf.ts:45-153 | the `map` callback (lines 135-153, with the helpers it calls at 45-80): no group without a truthy title; otherwise fails iff the prefixer yields fewer than two statements, else yields `describe(key, [it(play-test or smoke-test, skip iff a skip tag matches, second statement's expression)])` |
| CsfTransform.MapGroups | src/csf/transformCsf.ts:135-154 | the `map` gives one entry per kept key, each that key's callback result; when it throws, the error is that of the first key whose callback throws |
| CsfTransform.Compact | src/csf/transformCsf.ts:155 | `filter(Boolean)` keeps exactly the present groups: every kept group was present and every present group is kept; it never lengthens the list, keeps every group when all are present, and gives nothing when none is |
| CsfTransform.CompactIsSubsequence | src/csf/transformCsf.ts:155 | the kept groups appear in the input in the same order: `filter(Boolean)` only deletes |
| CsfTransform.TransformCsf | src/csf/transformCsf.ts:91-179 | the step-by-step transform (annotation loop, `allTests`, then `WriteOutput`) returns exactly `Transform`'s output or error |
| CsfTransform.WriteOutput | src/csf/transformCsf.ts:157-178 | the `result` string built up in place (source unless cleared, then the guarded `describe` or the placeholder) is exactly `Compose`'s output for the groups |
| CsfTransform.SkipTagsDoNotChangeKeptKeys | src/csf/transformCsf.ts:123-137 | the list of tested stories does not depend on the skip tags |
| CsfTransform.KeptKeysOfModule | src/csf/transformCsf.ts:106-134 | for a parsed module, a story's key is kept iff its own-or-inherited tags pass the filters, and the kept keys come in export order |
| CsfTransform.NoTitleNoTests | src/csf/transformCsf.ts:136-153 | without a truthy title no story yields a group, whatever the tags |
| CsfTransform.GroupsOfKeptKeys | src/csf/transformCsf.ts:123-155 | with a title and no error, group `j` is `describe(k, [it(...)])` for the `j`-th kept key `k`: label from its play flag, skip from its tags, the prefixer's second statement as body |
| CsfTransform.AllTestsFailIff | src/csf/transformCsf.ts:31-43 | building the groups throws iff the title is truthy and the prefixer yields fewer than two statements for some kept story; the error names the first such story |
| CsfTransform.GroupLabels | src/csf/transformCsf.ts:135-155 | there are as many groups as kept keys; group `j` is labelled with the `j`-th kept key and holds one case with the right label and skip flag |
| CsfTransform.GroupsWhenPrefixerBuildsTests | src/csf/transformCsf.ts:123-155 | when the title is truthy and the prefixer always yields two statements, building the groups succeeds with one correctly shaped group per kept key |
| CsfTransform.StoryGetsGroupIff | src/csf/transformCsf.ts:117-155 | a story of the module gets a group iff its effective tags pass include and exclude |
| CsfTransform.GroupOfStory | src/csf/transformCsf.ts:113-152 | the group of a story holds one case, `play-test` iff the story has its own play function, skipped iff its effective tags meet a skip tag |
| CsfTransform.GroupsInKeyOrder | src/csf/transformCsf.ts:123-155 | of two groups, the earlier one belongs to the earlier key |
| CsfTransform.GroupsInExportOrder | src/csf/transformCsf.ts:106-155 | the groups come in the stories' export order |
| CsfTransform.ComposeWithTests | src/csf/transformCsf.ts:157-172 | with at least one group, the output is the (possibly cleared) source and the guarded `describe(title)` of the `beforeEach` hook, when a file prefixer is given, followed by the groups |
| CsfTransform.ComposeWithoutTests | src/csf/transformCsf.ts:157-178 | with no group, the output is the placeholder when requested, else just the (possibly cleared) source |
| CsfTransform.SourceKeptUnlessCleared | src/csf/transformCsf.ts:157-172 | unless the placeholder replaces it, the output starts with the source and a newline when the body is kept; with the body cleared it is empty or starts with the guard |
| CsfTransform.OutputWithTests | src/csf/transformCsf.ts:160-172 | when the module yields groups, its title is truthy and the output is the guarded `describe` of the resolved title with the hook and those groups |
| CsfTransform.OutputWithoutTitle | src/csf/transformCsf.ts:136-177 | without a truthy title the output has no tests: the placeholder (naming `undefined` for an absent title) or the source |
| CsfTransform.TransformFailsIff | src/csf/transformCsf.ts:123-178 | the transform fails exactly when building the groups fails, with the same error |
| TagPolicies.EffectiveTags | src/csf/transformCsf.ts:117 | definition without contract; its properties are in `EffectiveTagsFallback` and `ExplicitEmptyTagsDoNotInherit` |
| CsfModel.AnnotationOf | src/csf/transformCsf.ts:111-117 | definition without contract; stated by `Annotations` and `BuildStoryAnnotations` |
| CsfTransform.Truthy | src/csf/transformCsf.ts:138 | definition without contract; stated by `StoryGroup`, `NoTitleNoTests` and `OutputWithTests` |
| CsfTransform.Hooks | src/csf/transformCsf.ts:164 | definition without contract; stated by `ComposeWithTests` and `OutputWithTests` |
| CsfTransform.ModuleDescribe | src/csf/transformCsf.ts:161-165 | definition without contract; stated by `Compose` and `ComposeWithTests` |
| TestTree.MakeArray | src/csf/transformCsf.ts:88-89 | definition without contract; used by `PrefixFunction`, whose contract states the statement list it yields |
| TestTree.MakeContext | src/csf/transformCsf.ts:31-38 | definition without contract; the context it builds is spelled out in the contracts of `PrefixFunction` and `StoryGroup` |
| TestTree.MakePlayTest | src/csf/transformCsf.ts:45-66 | definition without contract; the case it builds is stated by `StoryGroup` and `GroupOfStory` |
| TestTree.MakeDescribe | src/csf/transformCsf.ts:68-80 | definition without contract; the groups it builds are stated by `StoryGroup`, the module `describe` by `ComposeWithTests` |
| TestTree.MakeBeforeEach | src/csf/transformCsf.ts:82-86 | definition without contract; the hook is stated by `ComposeWithTests` and `OutputWithTests` |
| CsfTransform.ResolveTitle | src/csf/transformCsf.ts:103-107 | definition without contract; exercised by `Scenarios.AutoTitle` and used by `OutputWithTests` and `OutputWithoutTitle` |
| CsfTransform.TitleText | src/csf/transformCsf.ts:176 | definition without contract; its `undefined` case is stated by `OutputWithoutTitle` |
| CsfTransform.AllTests | src/csf/transformCsf.ts:123-155 | definition without contract; its properties are in `GroupsOfKeptKeys`, `AllTestsFailIff`, `GroupLabels`, `GroupsWhenPrefixerBuildsTests`, `NoTitleNoTests`, `StoryGetsGroupIff`, `GroupOfStory` and `GroupsInExportOrder` |
| CsfTransform.Prefix | src/csf/transformCsf.ts:159 | definition without contract; stated by `SourceKeptUnlessCleared` and `ComposeWithoutTests` |
| CsfTransform.GuardedBlock | src/csf/transformCsf.ts:166-172 | definition without contract; stated by `ComposeWithTests` and `SourceKeptUnlessCleared` |
| CsfTransform.Placeholder | src/csf/transformCsf.ts:176 | definition without contract; stated by `ComposeWithoutTests`, `OutputWithoutTitle` and `Scenarios.UnmatchedIncludeGivesPlaceholder` |
| CsfTransform.Compose | src/csf/transformCsf.ts:157-178 | definition without contract; its three output shapes are `ComposeWithTests`, `ComposeWithoutTests` and `SourceKeptUnlessCleared` |
| CsfTransform.Transform | src/csf/transformCsf.ts:91-178 | definition without contract; `TransformCsf` is proved equal to it, and `OutputWithTests`, `OutputWithoutTitle` and `TransformFailsIff` state its output |
| Scenarios.NoTagFilteringKeepsAll | src/playwright/transformPlaywright.test.ts:48-164 | with no tag filtering, untagged stories A and B both get a smoke test, A first, neither skipped |
| Scenarios.ExcludeTagDropsStory | src/playwright/transformPlaywright.test.ts:165-231 | excluding `exclude-test` drops story A, which carries it; only B gets a test |
| Scenarios.SkipTagSkipsStory | src/playwright/transformPlaywright.test.ts:233-349 | skipping `skip-test` keeps A as a skipped `smoke-test` case, and B's `smoke-test` case is not skipped |
| Scenarios.IncludeExcludeAndSkipTogether | src/playwright/transformPlaywright.test.ts:351-476 | include `play,design`, exclude `exclude`, skip `skip`: of A–D only B and C get a group, in that order, each one `smoke-test` case (neither has a play function); B's is skipped and C's is not |
| Scenarios.UnmatchedIncludeGivesPlaceholder | src/playwright/transformPlaywright.test.ts:478-490 | including only `play` when no story carries it gives exactly the placeholder `describe.skip('Example/foo/bar', …)` |
| Scenarios.PlayFunctionGivesPlayTest | src/playwright/transformPlaywright.test.ts:493-624 | a story with a play function gets `play-test`, one without gets `smoke-test`; either way the untagged story's case is not skipped |
| Scenarios.AutoTitle | src/playwright/transformPlaywright.test.ts:626-691 | a module without a title gets the configured title `Example/Header`, and its untagged story A gets one group `A` holding a non-skipped `smoke-test` case |

## Left out

- Parsing (`loadCsf`, `csf.parse()`): the model starts from the parsed module. The parser's own checks and errors are not part of this model.
- `storyNameFromExport` and `toId`: their bodies belong to the story format library. They are uninterpreted functions in `Env`.
- `@babel/generator`: uninterpreted `Env.generate` over the statement tree.
- Babel node construction and validation (for example of identifiers): not modelled.
- The `as t.ExpressionStatement` casts: reading `.expression` is the uninterpreted `Env.expressionOf`. A second statement that is not an expression statement then yields whatever `expressionOf` gives, not `undefined`.
- `CsfTransform.GuardedBlock`: approximates the whitespace that `ts-dedent` produces as `prefix + "\nif (!require.main) {\n" + code + "\n}"`. Indentation inside the block and the exact trimming are not modelled.
- Exceptions thrown by callbacks and foreign functions: the test prefixer, the file prefixer, `makeTitle`, `storyNameFromExport`, `toId` and the code generator are total function values. An exception one of them throws inside the `map` or in `makeBeforeEach` would abort the transform; the model only expresses the error from a prefixer result that is too short.
- CsfTransform.Compact: its contract and `CompactIsSubsequence` state membership both ways and order, but not the count of a group present more than once. In the transform every group carries a distinct story key.
- `getTagOptions`: reading and splitting the environment variables is outside the core. The three lists come in as `TagPolicy`.
- The `includeTags`, `excludeTags` and `skipTags` fields of `TransformOptions`: `transformCsf` never reads them, so the model has no counterpart.
- A file prefixer (`beforeEachPrefixer`) that returns a list of statements: the code casts the result to one statement. The model takes a single statement.
- The bodies of the prefixers, the Playwright and Jest runtime, the auto-title configuration and the Jest mocks: outside the core. `Scenarios.ExampleTitle` stands in for the configured `makeTitle`, and `BuildsTests` for a prefixer that always yields two statements.
- `Object.keys` ordering: the model takes export order. JavaScript would list integer-like keys first.
- Distinct keys: the object keys are distinct by construction. The model demands `DistinctKeys` of the parsed module instead.
- A play function given on the default export: like the code, the model looks only at the story's own annotations.

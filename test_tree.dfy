/**
 * The generated test tree and the statement builders of the transform:
 * the context handed to the test prefixer, the `it` case of a story, a
 * `describe` group and the module's `beforeEach` hook.
 */
module TestTree {
  import opened Wrappers

  /**
   * A generated statement: `describe(name, () => { body })`, `it(name, fn)`
   * or `it.skip(name, fn)`, and `beforeEach(fn)`. `E` stands for a Babel
   * expression, which the model never looks inside.
   */
  datatype Node<E> =
    | Describe(name: string, body: seq<Node<E>>)
    | It(name: string, skip: bool, fn: E)
    | BeforeEach(hook: E)

  /** What a prefixer may return: one Babel statement or a list of them. */
  datatype TemplateResult<S> = Single(stmt: S) | Many(stmts: seq<S>)

  /** The context handed to the test prefixer; every field is a string literal. */
  datatype TestContext = TestContext(storyExport: string, name: string, title: string, id: string)

  /**
   * Foreign code the transform calls: the story-name and id functions of the
   * story format library, the `.expression` of a Babel expression
   * statement, and the Babel code generator.
   */
  datatype Env<!S, !E> = Env(
    storyNameFromExport: string -> string,
    toId: (string, string) -> string,
    expressionOf: S -> E,
    generate: Node<E> -> string)

  /** Why the transform throws. */
  datatype TransformError =
      /** The test prefixer gave fewer than two statements for this story, so reading `result[1].expression` throws. */
    | NoTestStatement(key: string)


  /** `Array.isArray(templateResult) ? templateResult : [templateResult]`. */
  function MakeArray<S>(t: TemplateResult<S>): seq<S>
  {
    match t
    case Single(s) => [s]
    case Many(ss) => ss
  }

  /** The context of the story exported as `key` in the module titled `title`. */
  function MakeContext<S, E>(key: string, title: string, env: Env<S, E>): TestContext
  {
    var name := env.storyNameFromExport(key);
    TestContext(key, name, title, env.toId(title, name))
  }

  /**
   * Calls the test prefixer on the story's context and keeps the expression
   * of the SECOND statement it returns; with fewer statements JavaScript
   * throws on `undefined.expression`.
   */
  function PrefixFunction<S, E>(key: string, title: string, testPrefixer: TestContext -> TemplateResult<S>, env: Env<S, E>)
    : (r: Result<E, TransformError>)
    ensures var stmts := MakeArray(testPrefixer(MakeContext(key, title, env)));
      && (r.Ok? <==> |stmts| >= 2)
      && (r.Ok? ==> r.value == env.expressionOf(stmts[1]))
      && (r.Err? ==> r.error == NoTestStatement(key))
  {
    var result := MakeArray(testPrefixer(MakeContext(key, title, env)));
    if |result| < 2 then Err(NoTestStatement(key))
    else Ok(env.expressionOf(result[1]))
  }

  /** The single `it` (or `it.skip`) case of a story: a play test when the story has its own play function, else a smoke test. */
  function MakePlayTest<S, E>(key: string, title: string, hasPlay: bool, testPrefixer: TestContext -> TemplateResult<S>,
                              shouldSkip: bool, env: Env<S, E>): Result<seq<Node<E>>, TransformError>
  {
    match PrefixFunction(key, title, testPrefixer, env)
    case Err(e) => Err(e)
    case Ok(fn) => Ok([It(if hasPlay then "play-test" else "smoke-test", shouldSkip, fn)])
  }

  /** A `describe` group; the `beforeEach` hook, when given, comes before the tests. */
  function MakeDescribe<E>(name: string, tests: seq<Node<E>>, beforeEachBlock: Option<Node<E>>): Node<E>
  {
    Describe(name, if beforeEachBlock.Some? then [beforeEachBlock.value] + tests else tests)
  }

  /** `beforeEach(...)` around the expression of the statement the file prefixer returns. */
  function MakeBeforeEach<S, E>(beforeEachPrefixer: () -> S, env: Env<S, E>): Node<E>
  {
    BeforeEach(env.expressionOf(beforeEachPrefixer()))
  }
}

/**
 Kotlin's `Regex`, reduced to what the batching strategy asks of it:
 `matches(input)`, a match of the whole input. The matching itself belongs
 to the platform's regular-expression engine and is left uninterpreted: each
 `Regex` object carries the predicate it decides. `Regex` is a class because
 Kotlin's `Regex` does not override `equals`, so two patterns are equal only
 when they are the same object.
 */
module Regexes {

  class Regex {
    /** The source text of the pattern, as written in the configuration. It
        is carried only as a label: nothing here ties it to `matcher`. */
    const pattern: string
    /** Whole-string matching of `pattern`, as the engine decides it. */
    const matcher: string -> bool

    constructor (pattern: string, matcher: string -> bool)
      ensures this.pattern == pattern && this.matcher == matcher
    {
      this.pattern := pattern;
      this.matcher := matcher;
    }

    predicate Matches(input: string) {
      matcher(input)
    }
  }
}

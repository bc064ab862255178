/**
 * The pieces of the scanner that the rules consume: the issue record a rule
 * returns and the view of a call site that a call rule receives.
 */
module Core {
  import opened Wrappers

  /** The levels used for both severity and confidence. */
  datatype Level = LOW | MEDIUM | HIGH

  /**
   * What a rule hands back to the scanner. `lineno` is `None` when the rule
   * does not supply one; the scanner then uses the node's own line.
   */
  datatype Issue = Issue(severity: Level, confidence: Level, text: string, lineno: Option<int>)

  /**
   * The answers a call rule gets from the scanner's context for one call site.
   * The three fields stand for the engine's own queries, whose workings are
   * not part of this model:
   *   - `importedLike`: the module names `m` for which the
   *     "is a module like `m` imported" query answers yes;
   *   - `qual`: the resolved, dotted, fully qualified name of the callee;
   *   - `debugLine`: the line of the call's `debug` keyword argument, if any.
   */
  datatype Context = Context(importedLike: set<string>, qual: string, debugLine: Option<int>)
}

/** Data records, type patterns and guarded match rules, shared by the star,
    the synchrocell and the fused sync-star. */
module Records {
  /** A data record: labelled fields, tags and binding tags, and the stack of
      determinism references it carries (top first). */
  datatype Record = Record(
    fields: map<int, int>, tags: map<int, int>, btags: map<int, int>,
    detref: seq<int>)

  /** A type pattern: the labels a record must at least have. */
  datatype Variant = Variant(fields: set<int>, tags: set<int>, btags: set<int>)

  predicate PatternMatches(pattern: Variant, rec: Record) {
    && pattern.fields <= rec.fields.Keys
    && pattern.tags <= rec.tags.Keys
    && pattern.btags <= rec.btags.Keys
  }

  /** A pattern together with its guard expression, which never sees the determinism references. */
  datatype Rule = Rule(pattern: Variant, guard: Record -> bool)

  predicate Accepts(rule: Rule, rec: Record) {
    PatternMatches(rule.pattern, rec) && rule.guard(rec.(detref := []))
  }

  predicate MatchesAny(rules: seq<Rule>, rec: Record) {
    exists i :: 0 <= i < |rules| && Accepts(rules[i], rec)
  }

  /** The exit test of a star, as the loop over its exit patterns. */
  method MatchExitPatterns(rules: seq<Rule>, rec: Record) returns (found: bool)
    ensures found == MatchesAny(rules, rec)
    ensures found <==>
      exists i ::
        && 0 <= i < |rules| && rules[i].pattern.fields <= rec.fields.Keys && rules[i].pattern.tags <= rec.tags.Keys
        && rules[i].pattern.btags <= rec.btags.Keys && rules[i].guard(rec.(detref := []))
  {
    for i := 0 to |rules|
      invariant forall j :: 0 <= j < i ==> !Accepts(rules[j], rec)
    {
      if PatternMatches(rules[i].pattern, rec) && rules[i].guard(rec.(detref := [])) {
        return true;
      }
    }
    return false;
  }

  /** What a network node sends onwards while it handles one data record. */
  datatype Event =
    | Output(rec: Record)          // a record leaves towards the collector
    | Release(detref: seq<int>)    // a stored record gives up its determinism references
}

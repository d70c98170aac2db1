/**
 * The bracket heuristic both model adapters apply to a free-text reply before decoding it: the
 * candidate encoded object runs from the first '{' to the last '}' inclusive, and exists only when
 * that first '{' comes strictly before that last '}'.
 */
module StructuredOutput {
  import opened Wrappers
  import opened GoStrings

  /** Some '{' stands strictly before some '}' in `content`. */
  predicate HasBracePair(content: string) {
    exists i, j :: 0 <= i < j < |content| && content[i] == '{' && content[j] == '}'
  }

  /**
   * The candidate object in a reply (`strings.Index`, `strings.LastIndex`, the `jsonEnd <=
   * jsonStart` test and `content[jsonStart : jsonEnd+1]`). There is one exactly when some '{'
   * precedes some '}', and it is delimited by braces.
   */
  function JsonRegion(content: string): (r: Option<string>)
    ensures r.Some? <==> HasBracePair(content)
    ensures r.Some? ==> 2 <= |r.value| <= |content| && r.value[0] == '{' && r.value[|r.value| - 1] == '}'
  {
    var start := IndexOf(content, '{');
    var end := LastIndexOf(content, '}');
    if start == -1 || end == -1 || end <= start then
      None
    else
      Some(content[start..end + 1])
  }

  /**
   * The region decoded is exactly the text from the first '{' to the last '}', both included,
   * whenever the first '{' comes before the last '}'.
   */
  lemma JsonRegionIsFirstToLast(content: string, i: int, j: int)
    requires 0 <= i < j < |content|
    requires content[i] == '{' && '{' !in content[..i]
    requires content[j] == '}' && '}' !in content[j + 1..]
    ensures JsonRegion(content) == Some(content[i..j + 1])
  {
    IndexOfAt(content, '{', i);
    LastIndexOfAt(content, '}', j);
  }
}

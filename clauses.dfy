/**
 * The clause rule both wrapper classes apply to their optional `where` and `limit` arguments:
 * an argument of length zero contributes nothing, any other argument is prefixed with its
 * keyword and a single space. Nothing in the argument is checked, trimmed or escaped.
 */
module Clauses {

  /** The text spliced in place of `{$where}`: empty, or `WHERE ` and the caller's predicate. */
  function WhereFragment(where: string): (f: string)
    ensures f == "" <==> where == ""
    ensures where != "" ==> |f| == 6 + |where| && f[..6] == "WHERE " && f[6..] == where
  {
    if |where| > 0 then "WHERE " + where else ""
  }

  /** The text spliced in place of `{$limit}`: empty, or `LIMIT ` and the caller's text. */
  function LimitFragment(limit: string): (f: string)
    ensures f == "" <==> limit == ""
    ensures limit != "" ==> |f| == 6 + |limit| && f[..6] == "LIMIT " && f[6..] == limit
  {
    if |limit| > 0 then "LIMIT " + limit else ""
  }

  /** Distinct predicates give distinct fragments: the rule never loses the caller's text. */
  lemma WhereFragmentInjective(a: string, b: string)
    requires WhereFragment(a) == WhereFragment(b)
    ensures a == b
  {
  }

  lemma LimitFragmentInjective(a: string, b: string)
    requires LimitFragment(a) == LimitFragment(b)
    ensures a == b
  {
  }
}

/** The search `re.search(r"\{.*\}", raw_text, re.DOTALL)` that pulls a JSON
    candidate out of the model's free-form answer. Under DOTALL `.` matches
    every character, `.*` is greedy and `re.search` reports the leftmost
    match, so the candidate runs from the first `{` through the last `}`. */
module BraceSpan {
  import opened Wrappers

  /** `raw[i..j]` is a match of `\{.*\}`: it starts with `{` and ends with a
      later `}`. */
  ghost predicate IsMatch(raw: string, i: int, j: int)
  {
    0 <= i && i + 2 <= j <= |raw| && raw[i] == '{' && raw[j - 1] == '}'
  }

  /** `raw[i..j]` is the match `re.search` reports: no match starts earlier,
      and no match with the same start is longer. */
  ghost predicate IsSearchResult(raw: string, i: int, j: int)
  {
    && IsMatch(raw, i, j)
    && forall i', j' :: IsMatch(raw, i', j') ==> i < i' || (i == i' && j' <= j)
  }

  /** Index of the first occurrence of `c`, as `s.find(c)` without the -1. */
  function FirstIndexOf(s: string, c: char): (r: Option<nat>)
    ensures r.Some? ==> r.value < |s| && s[r.value] == c
    ensures r.Some? ==> forall k :: 0 <= k < r.value ==> s[k] != c
    ensures r.None? ==> forall k :: 0 <= k < |s| ==> s[k] != c
  {
    if s == [] then None
    else if s[0] == c then Some(0)
    else
      match FirstIndexOf(s[1..], c)
      case None => None
      case Some(k) => Some(k + 1)
  }

  /** Index of the last occurrence of `c`, as `s.rfind(c)` without the -1. */
  function LastIndexOf(s: string, c: char): (r: Option<nat>)
    ensures r.Some? ==> r.value < |s| && s[r.value] == c
    ensures r.Some? ==> forall k :: r.value < k < |s| ==> s[k] != c
    ensures r.None? ==> forall k :: 0 <= k < |s| ==> s[k] != c
  {
    if s == [] then None
    else if s[|s| - 1] == c then Some(|s| - 1)
    else LastIndexOf(s[..|s| - 1], c)
  }

  /** The bounds of the match, or None where `re.search` returns None. */
  function Search(raw: string): (r: Option<(nat, nat)>)
    ensures r.Some? ==> IsSearchResult(raw, r.value.0, r.value.1)
    ensures r.None? <==> forall i, j :: !IsMatch(raw, i, j)
  {
    match (FirstIndexOf(raw, '{'), LastIndexOf(raw, '}'))
    case (Some(i), Some(k)) => if i < k then Some((i, k + 1)) else None
    case _ => None
  }

  /** `match.group(0)`: the text of the match. */
  function Group(raw: string): (r: Option<string>)
    ensures r.None? <==> forall i, j :: !IsMatch(raw, i, j)
    ensures r.Some? ==> exists i, j :: IsSearchResult(raw, i, j) && r.value == raw[i..j]
  {
    match Search(raw)
    case Some((i, j)) => Some(raw[i..j])
    case None => None
  }

  /** A candidate exists exactly when some `{` comes strictly before some `}`. */
  lemma FoundIff(raw: string)
    ensures Group(raw).Some? <==>
            exists a, b :: 0 <= a < b < |raw| && raw[a] == '{' && raw[b] == '}'
  {
    if exists a, b :: 0 <= a < b < |raw| && raw[a] == '{' && raw[b] == '}' {
      var a, b :| 0 <= a < b < |raw| && raw[a] == '{' && raw[b] == '}';
      assert IsMatch(raw, a, b + 1);
    }
  }

  /** The candidate runs from the first `{` of the response through its last
      `}`: nothing before it is a `{`, nothing after it is a `}`. */
  lemma FirstOpenToLastClose(raw: string)
    requires Search(raw).Some?
    ensures var (i, j) := Search(raw).value;
            && raw[i] == '{' && raw[j - 1] == '}'
            && (forall k :: 0 <= k < i ==> raw[k] != '{')
            && (forall k :: j <= k < |raw| ==> raw[k] != '}')
  {
  }

  /** The candidate starts with `{` and ends with `}`. */
  lemma GroupShape(raw: string)
    requires Group(raw).Some?
    ensures var g := Group(raw).value;
            |g| >= 2 && g[0] == '{' && g[|g| - 1] == '}'
  {
  }

  /** A response that is itself a brace-delimited text is its own candidate. */
  lemma {:induction false} WholeResponse(raw: string)
    requires |raw| >= 2 && raw[0] == '{' && raw[|raw| - 1] == '}'
    ensures Group(raw) == Some(raw)
  {
    assert IsMatch(raw, 0, |raw|);
    var (i, j) := Search(raw).value;
    assert raw[i..j] == raw;
  }

  /** Searching the candidate again yields the candidate unchanged. */
  lemma Idempotent(raw: string)
    requires Group(raw).Some?
    ensures Group(Group(raw).value) == Group(raw)
  {
    GroupShape(raw);
    WholeResponse(Group(raw).value);
  }

  /** A response without braces has no candidate. */
  lemma NoJsonHere()
    ensures Group("No JSON here") == None
  {
  }

  /** Braces in the wrong order give no candidate either. */
  lemma ClosingBeforeOpening()
    ensures Group("} {") == None
  {
  }
}

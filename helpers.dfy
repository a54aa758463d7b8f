/** `clean_html` from utils/helpers.py: `re.sub('<.*?>', '', s)`. */
module Helpers {
  import opened Wrappers

  /** Where the shortest match of `.*?>` starting at the front of `t` ends: the index of the
      first '>' in `t`, provided no newline comes before it ('.' never matches a newline). */
  function CloseIndex(t: string): (r: Option<nat>)
    ensures r.Some? ==> r.value < |t| && t[r.value] == '>'
  {
    if t == [] then None
    else if t[0] == '>' then Some(0)
    else if t[0] == '\n' then None
    else match CloseIndex(t[1..])
      case None => None
      case Some(j) => Some(j + 1)
  }

  /** True when `<` followed by `t` starts a match of `<.*?>`. */
  predicate TagStartsBefore(t: string) {
    CloseIndex(t).Some?
  }

  /** Scans left to right as `re.sub` does: a '<' that starts a match is removed together with
      everything up to and including the closing '>', and scanning resumes after it; any other
      character is kept. */
  function CleanHtml(s: string): (r: string)
    ensures |r| <= |s|
    decreases |s|
  {
    if s == [] then []
    else if s[0] == '<' && TagStartsBefore(s[1..]) then CleanHtml(s[CloseIndex(s[1..]).value + 2..])
    else [s[0]] + CleanHtml(s[1..])
  }

  /** `a` can be obtained from `b` by deleting characters. */
  predicate IsSubsequence(a: string, b: string)
    decreases |b|
  {
    if a == [] then true
    else if b == [] then false
    else (a[0] == b[0] && IsSubsequence(a[1..], b[1..])) || IsSubsequence(a, b[1..])
  }

  /** No '<' in `s` is followed, on the same line, by a '>': nothing `<.*?>` could match. */
  predicate NoTag(s: string)
    decreases |s|
  {
    s == [] || ((s[0] == '<' ==> !TagStartsBefore(s[1..])) && NoTag(s[1..]))
  }

  /** `CloseIndex` finds exactly the shortest match: the first '>' with neither a '>' nor a
      newline before it. */
  lemma {:induction false} CloseIndexIsShortestMatch(t: string, k: nat)
    ensures CloseIndex(t) == Some(k) <==>
      (k < |t| && t[k] == '>' && forall m :: 0 <= m < k ==> t[m] != '>' && t[m] != '\n')
  {
    if t != [] && t[0] != '>' && t[0] != '\n' && k > 0 {
      CloseIndexIsShortestMatch(t[1..], k - 1);
      if k < |t| && t[k] == '>' && (forall m :: 0 <= m < k ==> t[m] != '>' && t[m] != '\n') {
        assert forall m :: 0 <= m < k - 1 ==> t[1..][m] == t[m + 1];
      }
      if CloseIndex(t) == Some(k) {
        assert forall m :: 1 <= m < k ==> t[m] == t[1..][m - 1];
      }
    }
  }

  /** There is no match at all exactly when every '>' of `t` has a newline before it. */
  lemma {:induction false} NoCloseMeansEveryCloseIsOnALaterLine(t: string)
    ensures CloseIndex(t).None? <==>
      forall k :: 0 <= k < |t| && t[k] == '>' ==> exists m :: 0 <= m < k && t[m] == '\n'
  {
    if t != [] && t[0] != '>' && t[0] != '\n' {
      NoCloseMeansEveryCloseIsOnALaterLine(t[1..]);
      if CloseIndex(t).None? {
        forall k | 0 <= k < |t| && t[k] == '>' ensures exists m :: 0 <= m < k && t[m] == '\n' {
          assert t[1..][k - 1] == '>';
          var m :| 0 <= m < k - 1 && t[1..][m] == '\n';
          assert t[m + 1] == '\n';
        }
      } else {
        var j := CloseIndex(t).value;
        CloseIndexIsShortestMatch(t, j);
        assert t[j] == '>';
        assert !exists m :: 0 <= m < j && t[m] == '\n';
      }
    } else if t != [] && t[0] == '\n' {
      forall k | 0 <= k < |t| && t[k] == '>' ensures exists m :: 0 <= m < k && t[m] == '\n' {
        assert t[0] == '\n';
      }
    }
  }

  /** A string without '<' is returned unchanged. */
  lemma {:induction false} CleanHtmlWithoutAngleIsIdentity(s: string)
    requires forall i :: 0 <= i < |s| ==> s[i] != '<'
    ensures CleanHtml(s) == s
    decreases |s|
  {
    if s != [] {
      CleanHtmlWithoutAngleIsIdentity(s[1..]);
    }
  }

  lemma {:induction false} SubsequenceOfSuffix(a: string, b: string, k: nat)
    requires k <= |b| && IsSubsequence(a, b[k..])
    ensures IsSubsequence(a, b)
    decreases k
  {
    if k > 0 {
      assert b[k..] == b[1..][k - 1..];
      SubsequenceOfSuffix(a, b[1..], k - 1);
      if a != [] {
        assert IsSubsequence(a, b[1..]);
      }
    }
  }

  lemma {:induction false} SubsequenceIsShorter(a: string, b: string)
    requires IsSubsequence(a, b)
    ensures |a| <= |b|
    decreases |b|
  {
    if a != [] {
      if a[0] == b[0] && IsSubsequence(a[1..], b[1..]) {
        SubsequenceIsShorter(a[1..], b[1..]);
      } else {
        SubsequenceIsShorter(a, b[1..]);
      }
    }
  }

  /** The output only deletes characters of the input; it never reorders or adds any. */
  lemma {:induction false} CleanHtmlIsSubsequence(s: string)
    ensures IsSubsequence(CleanHtml(s), s)
    decreases |s|
  {
    if s != [] {
      if s[0] == '<' && TagStartsBefore(s[1..]) {
        var k := CloseIndex(s[1..]).value + 2;
        CleanHtmlIsSubsequence(s[k..]);
        SubsequenceOfSuffix(CleanHtml(s[k..]), s, k);
      } else {
        CleanHtmlIsSubsequence(s[1..]);
        assert CleanHtml(s)[1..] == CleanHtml(s[1..]);
      }
    }
  }

  /** A removed match holds no newline. */
  lemma TagHasNoNewline(s: string)
    requires s != [] && s[0] == '<' && TagStartsBefore(s[1..])
    ensures '\n' !in s[..CloseIndex(s[1..]).value + 2]
  {
    var j := CloseIndex(s[1..]).value;
    CloseIndexIsShortestMatch(s[1..], j);
    var tag := s[..j + 2];
    forall i | 0 <= i < j + 2 ensures tag[i] != '\n' {
      if 0 < i < j + 1 {
        assert tag[i] == s[1..][i - 1];
      }
    }
  }

  /** Newlines are never removed: a match never crosses a line. */
  lemma {:induction false} CleanHtmlKeepsNewlines(s: string)
    ensures multiset(CleanHtml(s))['\n'] == multiset(s)['\n']
    decreases |s|
  {
    if s != [] {
      if s[0] == '<' && TagStartsBefore(s[1..]) {
        var k := CloseIndex(s[1..]).value + 2;
        TagHasNoNewline(s);
        CleanHtmlKeepsNewlines(s[k..]);
        var tag, rest := s[..k], s[k..];
        assert s == tag + rest;
        assert multiset(s) == multiset(tag) + multiset(rest);
        assert multiset(tag)['\n'] == 0;
      } else {
        CleanHtmlKeepsNewlines(s[1..]);
        assert s == [s[0]] + s[1..];
      }
    }
  }

  /** Deleting matches never creates a new match for a '<' that had none. */
  lemma {:induction false} CleanHtmlCreatesNoClose(s: string)
    requires !TagStartsBefore(s)
    ensures !TagStartsBefore(CleanHtml(s))
    decreases |s|
  {
    if s != [] && s[0] != '\n' {
      assert s[0] != '>';
      assert s[0] == '<' ==> !TagStartsBefore(s[1..]);
      CleanHtmlCreatesNoClose(s[1..]);
      assert CleanHtml(s) == [s[0]] + CleanHtml(s[1..]);
    }
  }

  /** The output contains no `<...>` span within one line. */
  lemma {:induction false} CleanHtmlLeavesNoTag(s: string)
    ensures NoTag(CleanHtml(s))
    decreases |s|
  {
    if s != [] {
      if s[0] == '<' && TagStartsBefore(s[1..]) {
        CleanHtmlLeavesNoTag(s[CloseIndex(s[1..]).value + 2..]);
      } else {
        CleanHtmlLeavesNoTag(s[1..]);
        if s[0] == '<' {
          CleanHtmlCreatesNoClose(s[1..]);
        }
        assert CleanHtml(s)[1..] == CleanHtml(s[1..]);
      }
    }
  }

  lemma {:induction false} CleanHtmlFixesTagFree(s: string)
    requires NoTag(s)
    ensures CleanHtml(s) == s
    decreases |s|
  {
    if s != [] {
      CleanHtmlFixesTagFree(s[1..]);
    }
  }

  /** Applying `clean_html` twice is the same as applying it once. */
  lemma CleanHtmlIdempotent(s: string)
    ensures CleanHtml(CleanHtml(s)) == CleanHtml(s)
  {
    CleanHtmlLeavesNoTag(s);
    CleanHtmlFixesTagFree(CleanHtml(s));
  }
}

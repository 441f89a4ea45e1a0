/**
 * The handful of regular expressions the clients match topics against, written
 * out as functions. Every pattern used has the shape
 *   ^<prefix>(.+)<sep1>(.+)<sep2>...(.+)<sepN>$
 * with literal separators. A JavaScript regular expression matches such a
 * pattern by backtracking: each greedy `(.+)` first takes as many characters as
 * it can and gives them back one at a time until the rest of the pattern
 * matches. `.` matches any character except a line terminator, and `$`
 * (without the multiline flag) matches only at the end of the input.
 */
module Patterns {
  import opened Js

  predicate IsLineTerminator(c: char) {
    c == '\n' || c == '\r' || c == '\U{2028}' || c == '\U{2029}'
  }

  predicate NoLineTerminator(s: string) {
    forall i :: 0 <= i < |s| ==> !IsLineTerminator(s[i])
  }

  /** The strings a group `(.+)` can match. */
  predicate IsGroup(g: string) {
    |g| > 0 && NoLineTerminator(g)
  }

  predicate AllGroups(gs: seq<string>) {
    forall i :: 0 <= i < |gs| ==> IsGroup(gs[i])
  }

  predicate StartsWith(s: string, prefix: string) {
    |prefix| <= |s| && s[..|prefix|] == prefix
  }

  predicate Excludes(s: string, c: char) {
    forall i :: 0 <= i < |s| ==> s[i] != c
  }

  /** The text `gs[0] + seps[0] + gs[1] + seps[1] + ...` that a match spells out. */
  function Join(gs: seq<string>, seps: seq<string>): string
    requires |gs| == |seps|
  {
    if gs == [] then "" else gs[0] + seps[0] + Join(gs[1..], seps[1..])
  }

  /**
   * Matches `s` against `(.+)seps[0](.+)seps[1]...(.+)seps[N-1]$` and returns
   * the captured groups. The last separator is followed by the end of input
   * (it is "" when the pattern ends in a group).
   */
  function Groups(s: string, seps: seq<string>): (r: Option<seq<string>>)
    requires |seps| > 0
    ensures r.Some? ==> |r.value| == |seps| && AllGroups(r.value) && Join(r.value, seps) == s
    decreases |seps|, |s| + 1
  {
    if |seps| == 1 then
      var k := |s| - |seps[0]|;
      if k > 0 && s[k..] == seps[0] && NoLineTerminator(s[..k]) then Some([s[..k]]) else None
    else
      GroupsFrom(s, seps, |s|)
  }

  /**
   * Backtracking over the first group: tries the first group `s[..j]`, then
   * shorter ones, and returns the first split whose remainder matches.
   */
  function GroupsFrom(s: string, seps: seq<string>, j: nat): (r: Option<seq<string>>)
    requires |seps| > 1 && j <= |s|
    ensures r.Some? ==> |r.value| == |seps| && AllGroups(r.value) && Join(r.value, seps) == s
    ensures r.Some? ==> |r.value[0]| <= j
    decreases |seps|, j
  {
    if j == 0 then None
    else if NoLineTerminator(s[..j]) && StartsWith(s[j..], seps[0]) then
      match Groups(s[j + |seps[0]|..], seps[1..])
      case Some(rest) =>
        assert s == s[..j] + seps[0] + s[j + |seps[0]|..];
        Some([s[..j]] + rest)
      case None => GroupsFrom(s, seps, j - 1)
    else
      GroupsFrom(s, seps, j - 1)
  }

  /** Completeness: whenever the input can be split as the pattern asks, the pattern matches. */
  lemma {:induction false} GroupsComplete(gs: seq<string>, seps: seq<string>)
    requires |gs| == |seps| > 0 && AllGroups(gs)
    ensures Groups(Join(gs, seps), seps).Some?
    decreases |seps|
  {
    var s := Join(gs, seps);
    if |seps| == 1 {
      assert s == gs[0] + seps[0];
      assert s[|gs[0]|..] == seps[0] && s[..|gs[0]|] == gs[0];
    } else {
      var rest := Join(gs[1..], seps[1..]);
      assert AllGroups(gs[1..]) by {
        forall i | 0 <= i < |gs[1..]| ensures IsGroup(gs[1..][i]) { assert gs[1..][i] == gs[i + 1]; }
      }
      GroupsComplete(gs[1..], seps[1..]);
      var j0 := |gs[0]|;
      assert s == gs[0] + seps[0] + rest;
      assert s[..j0] == gs[0];
      assert s[j0..][..|seps[0]|] == seps[0];
      assert s[j0 + |seps[0]|..] == rest;
      assert IsGroup(gs[0]);
      GroupsFromReaches(s, seps, |s|, j0);
    }
  }

  lemma {:induction false} GroupsFromReaches(s: string, seps: seq<string>, j: nat, j0: nat)
    requires |seps| > 1 && 0 < j0 <= j <= |s|
    requires NoLineTerminator(s[..j0]) && StartsWith(s[j0..], seps[0])
    requires Groups(s[j0 + |seps[0]|..], seps[1..]).Some?
    ensures GroupsFrom(s, seps, j).Some?
    decreases j
  {
    if j > j0 {
      GroupsFromReaches(s, seps, j - 1, j0);
    }
  }

  /**
   * A two-group pattern `(.+)sep(.+)$` whose separator ends in '/' splits a
   * string exactly at `sep` when the last group holds no '/': no later
   * occurrence of `sep` can leave a non-empty last group.
   */
  lemma GroupsLastSeparator(first: string, sep: string, last: string)
    requires IsGroup(first) && IsGroup(last) && Excludes(last, '/')
    requires |sep| > 0 && sep[|sep| - 1] == '/'
    ensures Groups(first + sep + last, [sep, ""]) == Some([first, last])
  {
    var s := first + sep + last;
    GroupsFromSkips(first, sep, last, |s|);
    GroupsFromAtSeparator(first, sep, last);
  }

  /** Trying the first group at exactly `first` succeeds. */
  lemma GroupsFromAtSeparator(first: string, sep: string, last: string)
    requires IsGroup(first) && IsGroup(last)
    ensures GroupsFrom(first + sep + last, [sep, ""], |first|) == Some([first, last])
  {
    var s := first + sep + last;
    var seps := [sep, ""];
    assert s[..|first|] == first;
    assert s[|first|..][..|sep|] == sep;
    assert s[|first| + |sep|..] == last;
    assert seps[1..] == [""];
    assert last[|last|..] == "" && last[..|last|] == last;
    assert Groups(last, [""]) == Some([last]);
    assert [first] + [last] == [first, last];
  }

  lemma {:induction false} GroupsFromSkips(first: string, sep: string, last: string, j: nat)
    requires IsGroup(first) && IsGroup(last) && Excludes(last, '/')
    requires |sep| > 0 && sep[|sep| - 1] == '/'
    requires |first| <= j <= |first + sep + last|
    ensures GroupsFrom(first + sep + last, [sep, ""], j) == GroupsFrom(first + sep + last, [sep, ""], |first|)
    decreases j
  {
    var s := first + sep + last;
    if j > |first| {
      if j + |sep| <= |s| {
        // the separator would end on a '/' inside `last`
        var q := j + |sep| - 1;
        assert s[q] == last[q - |first| - |sep|];
        assert s[j..][..|sep|][|sep| - 1] == s[q];
      }
      assert !StartsWith(s[j..], sep);
      GroupsFromSkips(first, sep, last, j - 1);
    }
  }

  /**
   * `a + ":" + b` determines `a` and `b` when `a` holds no ':', which makes the
   * colon-separated MQTT client identifiers unambiguous.
   */
  lemma ColonJoinInjective(a1: string, b1: string, a2: string, b2: string)
    requires Excludes(a1, ':') && Excludes(a2, ':')
    requires a1 + ":" + b1 == a2 + ":" + b2
    ensures a1 == a2 && b1 == b2
  {
    var s := a1 + ":" + b1;
    FirstColon(a1, b1);
    FirstColon(a2, b2);
    assert |a1| == |a2|;
    assert a1 == s[..|a1|] == a2;
    assert b1 == s[|a1| + 1..] == b2;
  }

  lemma FirstColon(a: string, b: string)
    requires Excludes(a, ':')
    ensures (a + ":" + b)[|a|] == ':'
    ensures forall i :: 0 <= i < |a| ==> (a + ":" + b)[i] != ':'
  {
  }
}

/** The positional-parameter rewrite applied to OleDb commands: every named
    parameter reference `@name` that ends on a regular-expression word boundary
    becomes a `?` placeholder, one parameter after another in collection order. */
module Placeholders {
  import opened Text

  /** The parameter pattern matches `s` at `i`: the literal pattern followed by a
      word boundary (`\b`), i.e. exactly one of the last matched character and
      the next character, if any, is a word character. */
  predicate MatchAt(s: string, i: int, p: string) {
    0 <= i && 0 < |p| && i + |p| <= |s| && s[i..i + |p|] == p &&
    IsWordChar(s[i + |p| - 1]) != (i + |p| < |s| && IsWordChar(s[i + |p|]))
  }

  ghost predicate NoMatch(s: string, p: string) {
    forall i :: !MatchAt(s, i, p)
  }

  /** A pattern built from a parameter name of word characters. */
  predicate IsParameterPattern(p: string) {
    |p| >= 2 && p[0] == '@' && forall j :: 1 <= j < |p| ==> IsWordChar(p[j])
  }

  /** The name the rewrite searches for: an `@` is prefixed unless present. */
  function PrefixedName(name: string): (p: string)
    ensures StartsWith(p, "@")
    ensures StartsWith(name, "@") ==> p == name
    ensures !StartsWith(name, "@") ==> p == "@" + name
  {
    if StartsWith(name, "@") then name else "@" + name
  }

  /** `Regex.Replace(s, p + "\b", "?")`: matches are found left to right and do
      not overlap; the pattern has no look-behind, so after a match the scan
      continues on the remaining text alone. */
  function ReplaceMatches(s: string, p: string): string
    requires |p| > 0
    decreases |s|
  {
    if |s| == 0 then s
    else if MatchAt(s, 0, p) then "?" + ReplaceMatches(s[|p|..], p)
    else [s[0]] + ReplaceMatches(s[1..], p)
  }

  /** The text after each parameter's pattern has been rewritten, in order. */
  function ReplaceParameters(text: string, names: seq<string>): string
    decreases |names|
  {
    if |names| == 0 then text
    else ReplaceParameters(ReplaceMatches(text, PrefixedName(names[0])), names[1..])
  }

  // ---------------------------------------------------------------------------
  // Facts about a single rewrite

  /** Whether the pattern matches depends only on the text from the match on. */
  lemma SuffixMatch(s: string, m: int, i: int, p: string)
    requires 0 <= m <= |s| && 0 <= i
    ensures MatchAt(s, i + m, p) <==> MatchAt(s[m..], i, p)
  {
    if i + m + |p| <= |s| {
      assert s[m..][i..i + |p|] == s[i + m..i + m + |p|];
    }
  }

  /** With no match anywhere the text is returned unchanged. */
  lemma {:induction false} NoMatchUnchanged(s: string, p: string)
    requires |p| > 0 && NoMatch(s, p)
    ensures ReplaceMatches(s, p) == s
    decreases |s|
  {
    if |s| > 0 {
      forall i ensures !MatchAt(s[1..], i, p) {
        if 0 <= i {
          SuffixMatch(s, 1, i, p);
        }
      }
      NoMatchUnchanged(s[1..], p);
    }
  }

  /** A prefix free of `@` is copied through unchanged, since every match of a
      parameter pattern starts with `@`. */
  lemma {:induction false} PrefixKept(t: string, q: string, k: nat)
    requires IsParameterPattern(q)
    requires k <= |t| && forall j :: 0 <= j < k ==> t[j] != '@'
    ensures k <= |ReplaceMatches(t, q)| && ReplaceMatches(t, q)[..k] == t[..k]
    decreases |t|
  {
    if |t| > 0 && k > 0 {
      assert !MatchAt(t, 0, q);
      PrefixKept(t[1..], q, k - 1);
      var r := ReplaceMatches(t, q);
      assert r == [t[0]] + ReplaceMatches(t[1..], q);
      assert r[..k] == [t[0]] + ReplaceMatches(t[1..], q)[..k - 1];
      assert t[..k] == [t[0]] + t[1..][..k - 1];
    }
  }

  /** A prefix of the result without `?` was copied from the text. */
  lemma {:induction false} CopiedPrefix(t: string, q: string, k: nat)
    requires |q| > 0
    requires k <= |ReplaceMatches(t, q)|
    requires forall j :: 0 <= j < k ==> ReplaceMatches(t, q)[j] != '?'
    ensures k <= |t| && t[..k] == ReplaceMatches(t, q)[..k]
    decreases |t|
  {
    if |t| > 0 && k > 0 {
      var r := ReplaceMatches(t, q);
      assert r[0] == if MatchAt(t, 0, q) then '?' else t[0];
      var r1 := ReplaceMatches(t[1..], q);
      assert r == [t[0]] + r1;
      forall j | 0 <= j < k - 1 ensures r1[j] != '?' {
        assert r1[j] == r[j + 1];
      }
      CopiedPrefix(t[1..], q, k - 1);
      assert r[..k] == [t[0]] + r1[..k - 1];
      assert t[..k] == [t[0]] + t[1..][..k - 1];
    }
  }

  /** A rewritten text that starts with a parameter match starts with `@`,
      so its head was copied, not replaced. */
  lemma HeadCopied(s: string, p: string, q: string)
    requires IsParameterPattern(p) && |q| > 0
    requires MatchAt(ReplaceMatches(s, q), 0, p)
    ensures |s| > 0 && !MatchAt(s, 0, q)
    ensures ReplaceMatches(s, q) == [s[0]] + ReplaceMatches(s[1..], q)
  {
    var r := ReplaceMatches(s, q);
    assert r[0] == r[..|p|][0] == '@';
  }

  /** The text of such a match was copied from the original text. */
  lemma HeadTextCopied(s: string, p: string, q: string)
    requires IsParameterPattern(p) && |q| > 0
    requires |s| > 0 && MatchAt(ReplaceMatches(s, q), 0, p)
    requires ReplaceMatches(s, q) == [s[0]] + ReplaceMatches(s[1..], q)
    ensures |p| <= |s| && s[..|p|] == p
  {
    var r := ReplaceMatches(s, q);
    var t := s[1..];
    var rt := ReplaceMatches(t, q);
    var w := |p| - 1;
    forall j | 0 <= j < w ensures rt[j] != '?' {
      assert rt[j] == r[j + 1] == r[..|p|][j + 1] == p[j + 1];
    }
    CopiedPrefix(t, q, w);
    assert s[..|p|] == [s[0]] + t[..w];
    assert r[..|p|] == [r[0]] + rt[..w];
  }

  /** A word character after the copied match would have been copied too,
      and then the rewritten text could not match there. */
  lemma HeadBoundaryKept(s: string, p: string, q: string)
    requires IsParameterPattern(p) && IsParameterPattern(q)
    requires |p| <= |s| && s[..|p|] == p && MatchAt(ReplaceMatches(s, q), 0, p)
    requires ReplaceMatches(s, q) == [s[0]] + ReplaceMatches(s[1..], q)
    ensures !(|p| < |s| && IsWordChar(s[|p|]))
  {
    if |p| < |s| && IsWordChar(s[|p|]) {
      var t := s[1..];
      var w := |p| - 1;
      forall j | 0 <= j < w + 1 ensures t[j] != '@' {
        if j < w {
          assert t[j] == s[..|p|][j + 1] == p[j + 1];
        } else {
          assert t[j] == s[|p|];
        }
      }
      PrefixKept(t, q, w + 1);
      assert false;
    }
  }

  /** A parameter match at the head of a rewritten text was already a match at
      the head of the original text: the `?` a rewrite inserts is neither `@`
      nor a word character, so it cannot complete or extend a match. */
  lemma HeadMatchOrigin(s: string, p: string, q: string)
    requires IsParameterPattern(p) && IsParameterPattern(q)
    requires MatchAt(ReplaceMatches(s, q), 0, p)
    ensures MatchAt(s, 0, p)
  {
    HeadCopied(s, p, q);
    HeadTextCopied(s, p, q);
    HeadBoundaryKept(s, p, q);
    assert s[|p| - 1] == s[..|p|][|p| - 1] == p[|p| - 1];
  }

  /** After the rewrite no match of the rewritten pattern remains. */
  lemma {:induction false} NoMatchRemains(s: string, p: string)
    requires IsParameterPattern(p)
    ensures NoMatch(ReplaceMatches(s, p), p)
    decreases |s|
  {
    if |s| > 0 {
      var r := ReplaceMatches(s, p);
      var m := if MatchAt(s, 0, p) then |p| else 1;
      var head := if MatchAt(s, 0, p) then "?" else [s[0]];
      NoMatchRemains(s[m..], p);
      assert r == head + ReplaceMatches(s[m..], p);
      forall i ensures !MatchAt(r, i, p) {
        if i == 0 && MatchAt(r, 0, p) {
          HeadMatchOrigin(s, p, p);
          assert false;
        } else if i > 0 {
          SuffixMatch(r, 1, i - 1, p);
          assert r[1..] == ReplaceMatches(s[m..], p);
        }
      }
    }
  }

  /** Rewriting one parameter never creates a match of another. */
  lemma {:induction false} RewritePreservesNoMatch(s: string, p: string, q: string)
    requires IsParameterPattern(p) && IsParameterPattern(q)
    requires NoMatch(s, p)
    ensures NoMatch(ReplaceMatches(s, q), p)
    decreases |s|
  {
    if |s| > 0 {
      var r := ReplaceMatches(s, q);
      var m := if MatchAt(s, 0, q) then |q| else 1;
      var head := if MatchAt(s, 0, q) then "?" else [s[0]];
      forall i ensures !MatchAt(s[m..], i, p) {
        if 0 <= i {
          SuffixMatch(s, m, i, p);
        }
      }
      RewritePreservesNoMatch(s[m..], p, q);
      assert r == head + ReplaceMatches(s[m..], q);
      forall i ensures !MatchAt(r, i, p) {
        if i == 0 && MatchAt(r, 0, p) {
          HeadMatchOrigin(s, p, q);
          assert false;
        } else if i > 0 {
          SuffixMatch(r, 1, i - 1, p);
          assert r[1..] == ReplaceMatches(s[m..], q);
        }
      }
    }
  }

  // ---------------------------------------------------------------------------
  // Facts about the whole parameter collection

  predicate AllParameterNames(names: seq<string>) {
    forall k :: 0 <= k < |names| ==> IsParameterPattern(PrefixedName(names[k]))
  }

  lemma {:induction false} LaterRewritesPreserve(s: string, p: string, names: seq<string>)
    requires IsParameterPattern(p) && AllParameterNames(names) && NoMatch(s, p)
    ensures NoMatch(ReplaceParameters(s, names), p)
    decreases |names|
  {
    if |names| > 0 {
      RewritePreservesNoMatch(s, p, PrefixedName(names[0]));
      LaterRewritesPreserve(ReplaceMatches(s, PrefixedName(names[0])), p, names[1..]);
    }
  }

  /** Once every parameter has been visited, no reference to any of them that
      ends on a word boundary is left in the text. */
  lemma {:induction false} NoParameterReferenceRemains(text: string, names: seq<string>)
    requires AllParameterNames(names)
    ensures forall k :: 0 <= k < |names| ==> NoMatch(ReplaceParameters(text, names), PrefixedName(names[k]))
    decreases |names|
  {
    if |names| > 0 {
      var p := PrefixedName(names[0]);
      var t := ReplaceMatches(text, p);
      NoMatchRemains(text, p);
      LaterRewritesPreserve(t, p, names[1..]);
      NoParameterReferenceRemains(t, names[1..]);
      forall k | 1 <= k < |names|
        ensures NoMatch(ReplaceParameters(text, names), PrefixedName(names[k]))
      {
        assert names[1..][k - 1] == names[k];
      }
    }
  }

  /** Text that mentions none of the parameters is left as it is. */
  lemma {:induction false} UnmentionedParametersKeepText(text: string, names: seq<string>)
    requires forall k :: 0 <= k < |names| ==> NoMatch(text, PrefixedName(names[k]))
    ensures ReplaceParameters(text, names) == text
    decreases |names|
  {
    if |names| > 0 {
      NoMatchUnchanged(text, PrefixedName(names[0]));
      forall k | 0 <= k < |names| - 1 ensures NoMatch(text, PrefixedName(names[1..][k])) {
        assert names[1..][k] == names[k + 1];
      }
      UnmentionedParametersKeepText(text, names[1..]);
    }
  }
}

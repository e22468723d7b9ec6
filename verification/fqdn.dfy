/** The Snowflake account-name substitution shared by every linked-service
    update: the old account name is replaced wherever it stands right after
    "://" and right before ".", as `re.sub` does with a look-behind and a
    look-ahead around the escaped old name. The scan goes left to right,
    matches never overlap, and both look-arounds read the original text. */
module Fqdn {

  /** `oldName` occurs at position `i` of `s`, preceded by "://" and followed by
      a dot. An empty old name is treated as matching nowhere. */
  predicate MatchAt(s: string, oldName: string, i: nat) {
    && |oldName| > 0
    && 3 <= i
    && i + |oldName| < |s|
    && s[i - 3..i] == "://"
    && s[i..i + |oldName|] == oldName
    && s[i + |oldName|] == '.'
  }

  predicate HasMatch(s: string, oldName: string) {
    exists i :: 0 <= i < |s| && MatchAt(s, oldName, i)
  }

  /** The substitution of the text from position `i` on. */
  function RewriteFrom(s: string, oldName: string, newName: string, i: nat): string
    requires i <= |s|
    decreases |s| - i
  {
    if i == |s| then []
    else if MatchAt(s, oldName, i) then newName + RewriteFrom(s, oldName, newName, i + |oldName|)
    else [s[i]] + RewriteFrom(s, oldName, newName, i + 1)
  }

  function Rewrite(s: string, oldName: string, newName: string): string {
    RewriteFrom(s, oldName, newName, 0)
  }

  /** How many replacements the scan from position `i` makes. */
  function MatchesFrom(s: string, oldName: string, i: nat): nat
    requires i <= |s|
    decreases |s| - i
  {
    if i == |s| then 0
    else if MatchAt(s, oldName, i) then 1 + MatchesFrom(s, oldName, i + |oldName|)
    else MatchesFrom(s, oldName, i + 1)
  }

  /** Every replacement changes the length by the difference of the two
      names, and nothing else changes it. */
  lemma {:induction false} RewriteFromLength(s: string, oldName: string, newName: string, i: nat)
    requires i <= |s|
    ensures |RewriteFrom(s, oldName, newName, i)| == |s| - i + MatchesFrom(s, oldName, i) * (|newName| - |oldName|)
    decreases |s| - i
  {
    if i < |s| {
      if MatchAt(s, oldName, i) {
        RewriteFromLength(s, oldName, newName, i + |oldName|);
        OneMoreMatch(MatchesFrom(s, oldName, i + |oldName|), |newName| - |oldName|);
      } else {
        RewriteFromLength(s, oldName, newName, i + 1);
      }
    }
  }

  /** The scan makes no replacement exactly when no position matches. */
  lemma {:induction false} NoMatchesFrom(s: string, oldName: string, i: nat)
    requires i <= |s|
    ensures MatchesFrom(s, oldName, i) == 0 <==> forall k :: i <= k < |s| ==> !MatchAt(s, oldName, k)
    decreases |s| - i
  {
    if i < |s| {
      if MatchAt(s, oldName, i) {
        assert MatchesFrom(s, oldName, i) > 0;
      } else {
        NoMatchesFrom(s, oldName, i + 1);
      }
    }
  }

  /** Without a replacement the text comes back unchanged. */
  lemma {:induction false} UnchangedWithoutMatch(s: string, oldName: string, newName: string, i: nat)
    requires i <= |s|
    requires MatchesFrom(s, oldName, i) == 0
    ensures RewriteFrom(s, oldName, newName, i) == s[i..]
    decreases |s| - i
  {
    if i < |s| {
      UnchangedWithoutMatch(s, oldName, newName, i + 1);
      assert s[i..] == [s[i]] + s[i + 1..];
    }
  }

  /** A suffix is a slice followed by the rest. */
  lemma SplitAfter(s: string, i: nat, j: nat)
    requires i <= j <= |s|
    ensures s[i..] == s[i..j] + s[j..]
  {
  }

  /** Replacing a name by itself changes nothing. */
  lemma {:induction false} UnchangedWhenSameName(s: string, oldName: string, i: nat)
    requires i <= |s|
    ensures RewriteFrom(s, oldName, oldName, i) == s[i..]
    decreases |s| - i
  {
    if i < |s| {
      if MatchAt(s, oldName, i) {
        UnchangedWhenSameName(s, oldName, i + |oldName|);
        SplitAfter(s, i, i + |oldName|);
        assert RewriteFrom(s, oldName, oldName, i) == oldName + RewriteFrom(s, oldName, oldName, i + |oldName|);
        assert s[i..i + |oldName|] == oldName;
      } else {
        UnchangedWhenSameName(s, oldName, i + 1);
        SplitAfter(s, i, i + 1);
        assert RewriteFrom(s, oldName, oldName, i) == [s[i]] + RewriteFrom(s, oldName, oldName, i + 1);
        assert s[i..i + 1] == [s[i]];
      }
    }
  }

  /** A replacement by a different name of the same length shows in the
      text at the first matched position. */
  lemma {:induction false} ChangedBySameLengthName(s: string, oldName: string, newName: string, i: nat)
    requires i <= |s|
    requires MatchesFrom(s, oldName, i) > 0 && |newName| == |oldName| && newName != oldName
    ensures RewriteFrom(s, oldName, newName, i) != s[i..]
    decreases |s| - i
  {
    var r := RewriteFrom(s, oldName, newName, i);
    assert i < |s|;
    if MatchAt(s, oldName, i) {
      var rest := RewriteFrom(s, oldName, newName, i + |oldName|);
      assert r == newName + rest;
      assert r[..|newName|] == newName;
      assert s[i..][..|oldName|] == s[i..i + |oldName|] == oldName;
    } else {
      var rest := RewriteFrom(s, oldName, newName, i + 1);
      assert MatchesFrom(s, oldName, i + 1) > 0;
      ChangedBySameLengthName(s, oldName, newName, i + 1);
      assert r == [s[i]] + rest;
      assert s[i..] == [s[i]] + s[i + 1..];
      assert r[1..] == rest && s[i..][1..] == s[i + 1..];
    }
  }

  /** The update functions abort when the substitution leaves the text
      as it was; that happens exactly when the old name occurs nowhere in
      the guarded position or the new name equals the old one. */
  lemma RewriteUnchangedIff(s: string, oldName: string, newName: string)
    ensures Rewrite(s, oldName, newName) == s <==> !HasMatch(s, oldName) || newName == oldName
  {
    assert s[0..] == s;
    NoMatchesFrom(s, oldName, 0);
    if newName == oldName {
      UnchangedWhenSameName(s, oldName, 0);
    } else if !HasMatch(s, oldName) {
      UnchangedWithoutMatch(s, oldName, newName, 0);
    } else {
      var m := MatchesFrom(s, oldName, 0);
      assert m > 0;
      if |newName| == |oldName| {
        ChangedBySameLengthName(s, oldName, newName, 0);
      } else {
        RewriteFromLength(s, oldName, newName, 0);
        ScaledNonZero(m, |newName| - |oldName|);
        assert |Rewrite(s, oldName, newName)| != |s|;
      }
    }
  }

  lemma OneMoreMatch(m: nat, d: int)
    ensures (1 + m) * d == m * d + d
  {
  }

  lemma ScaledNonZero(m: nat, d: int)
    requires m > 0 && d != 0
    ensures m * d != 0
  {
  }

  /** A position not preceded by "://" never matches. */
  lemma NotAfterScheme(s: string, oldName: string, k: nat)
    requires 3 <= k < |s| && (s[k - 3] != ':' || s[k - 2] != '/' || s[k - 1] != '/')
    ensures !MatchAt(s, oldName, k)
  {
  }

  const ExampleUrl := "sf://ab.east"

  /** The account name is replaced after the scheme and before the first
      host label. */
  lemma RewriteExample()
    ensures Rewrite(ExampleUrl, "ab", "cd") == "sf://cd.east"
  {
    ExampleHead();
    ExampleMatch();
  }

  /** Nothing before the account name matches. */
  lemma ExampleHead()
    ensures RewriteFrom(ExampleUrl, "ab", "cd", 0) == "sf://" + RewriteFrom(ExampleUrl, "ab", "cd", 5)
  {
    var s := ExampleUrl;
    assert s[0] == 's' && s[1] == 'f' && s[2] == ':' && s[3] == '/';
    forall k | 0 <= k < 5 ensures !MatchAt(s, "ab", k) {
      if k >= 3 { NotAfterScheme(s, "ab", k); }
    }
    assert s[0..5] == "sf://";
    CopiedWithoutMatch(s, "ab", "cd", 0, 5);
  }

  /** The account name is replaced, and nothing after it matches. */
  lemma ExampleMatch()
    ensures RewriteFrom(ExampleUrl, "ab", "cd", 5) == "cd.east"
  {
    var s := ExampleUrl;
    assert s[6] == 'b' && s[7] == '.' && s[8] == 'e' && s[9] == 'a' && s[10] == 's';
    forall k | 7 <= k < |s| ensures !MatchAt(s, "ab", k) {
      NotAfterScheme(s, "ab", k);
    }
    assert RewriteFrom(s, "ab", "cd", 7) == ".east" by {
      assert s[7..] == ".east";
      NoMatchesFrom(s, "ab", 7);
      UnchangedWithoutMatch(s, "ab", "cd", 7);
    }
    assert s[2..5] == "://" && s[5..7] == "ab";
    assert MatchAt(s, "ab", 5);
  }

  /** A stretch without a match is copied as it stands. */
  lemma {:induction false} CopiedWithoutMatch(s: string, oldName: string, newName: string, i: nat, j: nat)
    requires i <= j <= |s|
    requires forall k :: i <= k < j ==> !MatchAt(s, oldName, k)
    ensures RewriteFrom(s, oldName, newName, i) == s[i..j] + RewriteFrom(s, oldName, newName, j)
    decreases j - i
  {
    if i == j {
      assert s[i..j] == [];
    } else {
      var tail := RewriteFrom(s, oldName, newName, j);
      var rest := RewriteFrom(s, oldName, newName, i + 1);
      assert rest == s[i + 1..j] + tail by { CopiedWithoutMatch(s, oldName, newName, i + 1, j); }
      assert RewriteFrom(s, oldName, newName, i) == [s[i]] + rest by { assert !MatchAt(s, oldName, i); }
      ConsSlice(s, i, j, tail);
    }
  }

  /** Taking one element off the front of a slice. */
  lemma ConsSlice(s: string, i: nat, j: nat, tail: string)
    requires i < j <= |s|
    ensures [s[i]] + (s[i + 1..j] + tail) == s[i..j] + tail
  {
    assert s[i..j] == [s[i]] + s[i + 1..j];
  }

  /** The same name elsewhere, without the scheme before it or the dot
      after it, is left alone. */
  lemma RewriteGuards()
    ensures Rewrite("ab.east", "ab", "cd") == "ab.east"
    ensures Rewrite("sf://ab", "ab", "cd") == "sf://ab"
  {
    NoMatchesFrom("ab.east", "ab", 0);
    UnchangedWithoutMatch("ab.east", "ab", "cd", 0);
    NoMatchesFrom("sf://ab", "ab", 0);
    UnchangedWithoutMatch("sf://ab", "ab", "cd", 0);
  }
}

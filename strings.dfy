/**
 * PHP's `explode`, `implode` and single-pair `str_replace`/`strtr`, and
 * the facts relating them: exploding then imploding restores the string,
 * and replacing every occurrence is exploding then imploding with the
 * replacement.
 */
module Strings {

  /** `s[i..]` starts with `p`. */
  predicate StartsAt(s: string, i: nat, p: string)
  {
    i + |p| <= |s| && s[i..i + |p|] == p
  }

  /** `p` occurs somewhere in `s`. */
  predicate Contains(s: string, p: string)
  {
    exists i: nat | i <= |s| :: StartsAt(s, i, p)
  }

  /** `explode(sep, s)`: the pieces of `s` between the occurrences of `sep`, scanned left to right. */
  function Split(s: string, sep: string): (parts: seq<string>)
    requires sep != ""
    ensures |parts| >= 1
    decreases |s|
  {
    if s == [] then [""]
    else if sep <= s then [""] + Split(s[|sep|..], sep)
    else
      var rest := Split(s[1..], sep);
      [[s[0]] + rest[0]] + rest[1..]
  }

  /** `implode(sep, parts)`. */
  function Join(parts: seq<string>, sep: string): string
    decreases |parts|
  {
    if parts == [] then ""
    else if |parts| == 1 then parts[0]
    else parts[0] + sep + Join(parts[1..], sep)
  }

  /** `str_replace(pat, rep, s)` (equally `strtr(s, [pat => rep])`): every occurrence, left to right, no rescanning. */
  function ReplaceAll(s: string, pat: string, rep: string): string
    requires pat != ""
    decreases |s|
  {
    if s == [] then ""
    else if pat <= s then rep + ReplaceAll(s[|pat|..], pat, rep)
    else [s[0]] + ReplaceAll(s[1..], pat, rep)
  }

  /** The last element of a non-empty list (`array_pop`). */
  function Last(parts: seq<string>): string
    requires parts != []
  {
    parts[|parts| - 1]
  }

  /**
   * Imploded pieces end with the last piece, and what precedes it is
   * empty (a single piece) or ends with the separator.
   */
  lemma {:induction false} JoinEndsWithLast(parts: seq<string>, sep: string) returns (pre: string)
    requires parts != []
    ensures Join(parts, sep) == pre + Last(parts)
    ensures pre == "" || (|sep| <= |pre| && pre[|pre| - |sep|..] == sep)
    decreases |parts|
  {
    if |parts| == 1 {
      pre := "";
    } else {
      var inner := JoinEndsWithLast(parts[1..], sep);
      assert Last(parts[1..]) == Last(parts);
      pre := parts[0] + sep + inner;
      assert Join(parts, sep) == parts[0] + sep + Join(parts[1..], sep);
      if inner != "" {
        assert pre[|pre| - |sep|..] == inner[|inner| - |sep|..];
      }
    }
  }

  /** Joining a list whose head is extended at the front. */
  lemma JoinConsHead(c: char, parts: seq<string>, sep: string)
    requires parts != []
    ensures Join([[c] + parts[0]] + parts[1..], sep) == [c] + Join(parts, sep)
  {
    var q := [[c] + parts[0]] + parts[1..];
    assert q[1..] == parts[1..];
  }

  /** Joining a list with one more element at the front. */
  lemma JoinCons(h: string, parts: seq<string>, sep: string)
    requires parts != []
    ensures Join([h] + parts, sep) == h + sep + Join(parts, sep)
  {
    assert ([h] + parts)[1..] == parts;
  }

  /** Replacing a pattern by itself changes nothing. */
  lemma {:induction false} ReplaceBySelf(s: string, pat: string)
    requires pat != ""
    ensures ReplaceAll(s, pat, pat) == s
    decreases |s|
  {
    if s != [] {
      if pat <= s {
        var tail := s[|pat|..];
        ReplaceBySelf(tail, pat);
        assert ReplaceAll(s, pat, pat) == pat + ReplaceAll(tail, pat, pat);
        assert s[..|pat|] == pat;
        assert s == pat + tail;
      } else {
        var tail := s[1..];
        ReplaceBySelf(tail, pat);
        assert ReplaceAll(s, pat, pat) == [s[0]] + ReplaceAll(tail, pat, pat);
        assert s == [s[0]] + tail;
      }
    }
  }

  /** Imploding the pieces of an explode with the same separator gives back the string. */
  lemma JoinSplit(s: string, sep: string)
    requires sep != ""
    ensures Join(Split(s, sep), sep) == s
  {
    ReplaceIsSplitJoin(s, sep, sep);
    ReplaceBySelf(s, sep);
  }

  /** Replacing every occurrence is exploding on the pattern and imploding with the replacement. */
  lemma {:induction false} ReplaceIsSplitJoin(s: string, pat: string, rep: string)
    requires pat != ""
    ensures ReplaceAll(s, pat, rep) == Join(Split(s, pat), rep)
    decreases |s|
  {
    if s == [] {
    } else if pat <= s {
      var tail := s[|pat|..];
      var rest := Split(tail, pat);
      assert Split(s, pat) == [""] + rest;
      ReplaceIsSplitJoin(tail, pat, rep);
      JoinCons("", rest, rep);
    } else {
      var rest := Split(s[1..], pat);
      assert Split(s, pat) == [[s[0]] + rest[0]] + rest[1..];
      ReplaceIsSplitJoin(s[1..], pat, rep);
      JoinConsHead(s[0], rest, rep);
    }
  }

  /** No piece of an explode on a one-character separator contains that character. */
  lemma {:induction false} SplitPiecesAvoid(s: string, c: char)
    ensures forall k :: 0 <= k < |Split(s, [c])| ==> c !in Split(s, [c])[k]
    decreases |s|
  {
    if s == [] {
    } else if [c] <= s {
      SplitPiecesAvoid(s[1..], c);
      assert s[|[c]|..] == s[1..];
    } else {
      SplitPiecesAvoid(s[1..], c);
      var rest := Split(s[1..], [c]);
      assert s[0] != c;
      assert Split(s, [c]) == [[s[0]] + rest[0]] + rest[1..];
    }
  }

  /** Replacing with the empty string only removes characters. */
  lemma {:induction false} RemoveKeepsOnlyOriginal(s: string, pat: string, x: char)
    requires pat != ""
    requires x in ReplaceAll(s, pat, "")
    ensures x in s
    decreases |s|
  {
    if s == [] {
    } else if pat <= s {
      RemoveKeepsOnlyOriginal(s[|pat|..], pat, x);
    } else if x != s[0] {
      RemoveKeepsOnlyOriginal(s[1..], pat, x);
    }
  }

  /** Removing a pattern never brings in a character the string did not have. */
  lemma RemoveAvoids(s: string, pat: string, x: char)
    requires pat != "" && x !in s
    ensures x !in ReplaceAll(s, pat, "")
  {
    if x in ReplaceAll(s, pat, "") {
      RemoveKeepsOnlyOriginal(s, pat, x);
    }
  }

  /** Removing a one-character pattern removes every occurrence of that character. */
  lemma {:induction false} RemoveCharGone(s: string, c: char)
    ensures c !in ReplaceAll(s, [c], "")
    decreases |s|
  {
    if s != [] {
      RemoveCharGone(s[1..], c);
      if [c] <= s {
        assert s[|[c]|..] == s[1..];
      }
    }
  }

  /** A string in which the pattern does not occur is left unchanged by the replacement. */
  lemma {:induction false} ReplaceAbsent(s: string, pat: string, rep: string)
    requires pat != ""
    requires !Contains(s, pat)
    ensures ReplaceAll(s, pat, rep) == s
    decreases |s|
  {
    if s != [] {
      if pat <= s {
        assert StartsAt(s, 0, pat);
      }
      forall i: nat | i <= |s[1..]| && StartsAt(s[1..], i, pat) ensures false {
        assert s[i + 1..i + 1 + |pat|] == s[1..][i..i + |pat|];
        assert StartsAt(s, i + 1, pat);
      }
      ReplaceAbsent(s[1..], pat, rep);
    }
  }

  /** A string without the one-character separator explodes to itself. */
  lemma {:induction false} SplitWithoutSeparator(s: string, c: char)
    requires c !in s
    ensures Split(s, [c]) == [s]
    decreases |s|
  {
    if s != [] {
      assert s[0] in s;
      SplitWithoutSeparator(s[1..], c);
      assert s == [s[0]] + s[1..];
    }
  }

  /** Exploding stops at the first separator: a separator-free head is the first piece. */
  lemma {:induction false} SplitAtFirst(a: string, b: string, c: char)
    requires c !in a
    ensures Split(a + [c] + b, [c]) == [a] + Split(b, [c])
    decreases |a|
  {
    var s := a + [c] + b;
    if a == [] {
      assert s == [c] + b;
      assert s[|[c]|..] == b;
    } else {
      assert a[0] in a;
      assert s[0] == a[0];
      assert s[1..] == a[1..] + [c] + b;
      SplitAtFirst(a[1..], b, c);
      assert a == [a[0]] + a[1..];
    }
  }

  /** Imploding separator-free pieces then exploding gives back the pieces. */
  lemma {:induction false} SplitJoin(parts: seq<string>, c: char)
    requires parts != []
    requires forall k :: 0 <= k < |parts| ==> c !in parts[k]
    ensures Split(Join(parts, [c]), [c]) == parts
    decreases |parts|
  {
    if |parts| == 1 {
      SplitWithoutSeparator(parts[0], c);
      assert parts == [parts[0]];
    } else {
      var tail := parts[1..];
      assert forall k :: 0 <= k < |tail| ==> c !in tail[k] by {
        forall k | 0 <= k < |tail| ensures c !in tail[k] {
          assert tail[k] == parts[k + 1];
        }
      }
      SplitJoin(tail, c);
      var rest := Join(tail, [c]);
      assert Join(parts, [c]) == parts[0] + [c] + rest;
      assert c !in parts[0];
      SplitAtFirst(parts[0], rest, c);
      assert parts == [parts[0]] + tail;
    }
  }

  /** A pattern whose first character never occurs in the string leaves it unchanged. */
  lemma {:induction false} ReplaceWithoutLead(s: string, pat: string, rep: string)
    requires pat != "" && pat[0] !in s
    ensures ReplaceAll(s, pat, rep) == s
    decreases |s|
  {
    if s != [] {
      assert s[0] in s;
      assert forall c :: c in s[1..] ==> c in s;
      ReplaceWithoutLead(s[1..], pat, rep);
      assert s == [s[0]] + s[1..];
    }
  }
}

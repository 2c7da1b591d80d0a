/**
  The two java.lang.String operations the core relies on: `contains`, used to
  find tokens in a command template, and `replace(CharSequence, CharSequence)`,
  used to put a player's name in place of the player token.
 */
module Strings {

  /** `t` occurs in `s` starting at index `i`. */
  ghost predicate OccursAt(s: string, t: string, i: int) {
    0 <= i && i + |t| <= |s| && s[i..i + |t|] == t
  }

  /** String.contains: is `t` a contiguous part of `s`? */
  function Contains(s: string, t: string): bool
    decreases |s|
  {
    if |s| < |t| then false
    else if s[..|t|] == t then true
    else Contains(s[1..], t)
  }

  /** Contains is substring search: it holds exactly when `t` occurs somewhere in `s`. */
  lemma {:induction false} ContainsIff(s: string, t: string)
    ensures Contains(s, t) <==> exists i :: OccursAt(s, t, i)
    decreases |s|
  {
    if |s| < |t| {
    } else if s[..|t|] == t {
      assert OccursAt(s, t, 0);
    } else {
      ContainsIff(s[1..], t);
      if exists i :: OccursAt(s[1..], t, i) {
        var i :| OccursAt(s[1..], t, i);
        assert s[1..][i..i + |t|] == s[i + 1..i + 1 + |t|];
        assert OccursAt(s, t, i + 1);
      }
      if exists i :: OccursAt(s, t, i) {
        var i :| OccursAt(s, t, i);
        assert i != 0;
        assert s[1..][i - 1..i - 1 + |t|] == s[i..i + |t|];
        assert OccursAt(s[1..], t, i - 1);
      }
    }
  }

  /**
    String.replace(target, replacement): every occurrence of `t`, found left
    to right without overlap, becomes `r`. As in Java, an empty target puts
    `r` before every character and at the end.
   */
  function ReplaceAll(s: string, t: string, r: string): string
    decreases |s|
  {
    if |t| == 0 then (if s == [] then r else r + [s[0]] + ReplaceAll(s[1..], t, r))
    else if |s| < |t| then s
    else if s[..|t|] == t then r + ReplaceAll(s[|t|..], t, r)
    else [s[0]] + ReplaceAll(s[1..], t, r)
  }

  /** A template without the (non-empty) token comes back unchanged. */
  lemma {:induction false} ReplaceAbsent(s: string, t: string, r: string)
    requires |t| > 0 && !Contains(s, t)
    ensures ReplaceAll(s, t, r) == s
    decreases |s|
  {
    if |s| >= |t| {
      ReplaceAbsent(s[1..], t, r);
    }
  }

  /** Replacing a token by itself changes nothing, whatever the token. */
  lemma {:induction false} ReplaceBySelf(s: string, t: string)
    ensures ReplaceAll(s, t, t) == s
    decreases |s|
  {
    if |t| == 0 {
      if s != [] {
        ReplaceBySelf(s[1..], t);
      }
    } else if |s| >= |t| {
      if s[..|t|] == t {
        ReplaceBySelf(s[|t|..], t);
        assert s == s[..|t|] + s[|t|..];
      } else {
        ReplaceBySelf(s[1..], t);
        assert s == [s[0]] + s[1..];
      }
    }
  }

  /** A token after a prefix in which its first character never appears is replaced and the prefix kept. */
  lemma {:induction false} ReplaceAfterPrefix(p: string, t: string, r: string)
    requires |t| > 0 && forall k :: 0 <= k < |p| ==> p[k] != t[0]
    ensures ReplaceAll(p + t, t, r) == p + r
    decreases |p|
  {
    if p == [] {
      assert (p + t)[..|t|] == t && (p + t)[|t|..] == [];
    } else {
      assert (p + t)[..|t|][0] != t[0];
      assert (p + t)[1..] == p[1..] + t;
      ReplaceAfterPrefix(p[1..], t, r);
    }
  }
}

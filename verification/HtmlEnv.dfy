/**
The `%KEY%` substitution of index.html: the scan, proved equal to replacing every
match of the regular expression `%(\S+?)%`, left to right, where a match whose
key is in the map becomes its value and any other stays as it is.
*/
module HtmlEnv {
  import opened Options

  type Env = map<string, string>

  /** The class `\s` of a JavaScript regular expression. */
  predicate JsWhitespace(c: char) {
    || c == '\t' || c == '\n' || c == '\U{000B}' || c == '\U{000C}' || c == '\r' || c == ' '
    || c == '\U{00A0}' || c == '\U{1680}' || '\U{2000}' <= c <= '\U{200A}' || c == '\U{2028}' || c == '\U{2029}'
    || c == '\U{202F}' || c == '\U{205F}' || c == '\U{3000}' || c == '\U{FEFF}'
  }

  /** White space and line terminators of ECMAScript, by code point. */
  lemma JsWhitespaceIs(c: char)
    ensures var n := c as int;
            JsWhitespace(c) <==> n in {0x9, 0xA, 0xB, 0xC, 0xD, 0x20, 0xA0, 0x1680, 0x2028, 0x2029, 0x202F, 0x205F, 0x3000, 0xFEFF}
                                 || 0x2000 <= n <= 0x200A
  {
  }

  // ------------------------------------------------------ the regular expression

  /** `%(\S+?)%` matches the text from `i` to `j`, both ends included. */
  ghost predicate Matches(s: string, i: int, j: int) {
    && 0 <= i && i + 2 <= j < |s| && s[i] == '%' && s[j] == '%'
    && forall k :: i < k < j ==> !JsWhitespace(s[k])
  }

  /** Non-greedy: no earlier close matches from the same opener. */
  ghost predicate ShortestMatch(s: string, i: int, j: int) {
    Matches(s, i, j) && forall j' :: j' < j ==> !Matches(s, i, j')
  }

  /** No match begins at `i`. */
  ghost predicate NoMatchAt(s: string, i: int) {
    forall j :: 0 <= j < |s| ==> !Matches(s, i, j)
  }

  /** The match the engine takes: leftmost, then shortest. */
  ghost predicate FirstMatch(s: string, i: int, j: int) {
    ShortestMatch(s, i, j) && forall i' :: 0 <= i' < i ==> NoMatchAt(s, i')
  }

  function Replacement(env: Env, text: string): string
    requires |text| >= 2
  {
    var key := text[1..|text| - 1];
    if key in env then env[key] else text
  }

  /** The first match of a text, if it has one. */
  ghost function First(s: string): (m: Option<(int, int)>)
    ensures m.Some? ==> FirstMatch(s, m.value.0, m.value.1)
    ensures m.None? ==> forall i, j :: !FirstMatch(s, i, j)
  {
    if exists i, j :: FirstMatch(s, i, j) then
      var i, j :| FirstMatch(s, i, j); Some((i, j))
    else None
  }

  /** `s.replace(/%(\S+?)%/g, ..)`: the text before the first match, what stands
      for the match, and the same again of what follows it. */
  ghost function RegexReplace(s: string, env: Env): string
    decreases |s|
  {
    match First(s)
    case Some((i, j)) => s[..i] + (Replacement(env, s[i..j + 1]) + RegexReplace(s[j + 1..], env))
    case None => s
  }

  lemma MatchInside(s: string, i: int, j: int)
    ensures Matches(s, i, j) ==> 0 <= i && i + 2 <= j < |s|
  {
  }

  lemma MatchNotBefore(s: string, n: nat, i: int, j: int)
    requires forall k :: 0 <= k < n ==> NoMatchAt(s, k)
    ensures Matches(s, i, j) ==> n <= i
  {
    assert 0 <= i < n ==> NoMatchAt(s, i);
  }

  /** The leftmost shortest match is determined by the text. */
  lemma FirstIs(s: string, i: int, j: int)
    requires FirstMatch(s, i, j)
    ensures First(s) == Some((i, j))
  {
    var (i', j') := First(s).value;
    hide First, Matches;
    MatchNotBefore(s, i', i, j);
    MatchNotBefore(s, i, i', j');
  }

  /** A text with a match has a first one. */
  lemma {:induction false} SomeMatchIsFirst(s: string, i: int, j: int)
    requires Matches(s, i, j)
    ensures First(s).Some?
    decreases i, j
  {
    hide First, Matches;
    MatchInside(s, i, j);
    if !FirstMatch(s, i, j) {
      if j' :| j' < j && Matches(s, i, j') {
        MatchInside(s, i, j');
        SomeMatchIsFirst(s, i, j');
      } else {
        var i' :| 0 <= i' < i && !NoMatchAt(s, i');
        var j' :| 0 <= j' < |s| && Matches(s, i', j');
        SomeMatchIsFirst(s, i', j');
      }
    }
  }

  lemma MatchShifts(s: string, n: nat, i: int, j: int)
    requires n <= i && n <= |s|
    ensures Matches(s, i, j) <==> Matches(s[n..], i - n, j - n)
  {
    var t := s[n..];
    if Matches(t, i - n, j - n) {
      forall k | i < k < j ensures !JsWhitespace(s[k]) {
        assert s[k] == t[k - n];
      }
    }
  }

  lemma FirstShifts(s: string, n: nat)
    requires n <= |s| && forall k :: 0 <= k < n ==> NoMatchAt(s, k)
    ensures First(s).None? <==> First(s[n..]).None?
    ensures First(s).Some? ==> First(s[n..]) == Some((First(s).value.0 - n, First(s).value.1 - n)) && First(s).value.0 >= n
  {
    hide First, Matches, FirstMatch;
    var t := s[n..];
    if First(t).Some? {
      MatchedIn(t, First(t).value.0, First(t).value.1);
      MatchShifts(s, n, First(t).value.0 + n, First(t).value.1 + n);
      SomeMatchIsFirst(s, First(t).value.0 + n, First(t).value.1 + n);
    }
    if First(s).Some? {
      var (i, j) := First(s).value;
      MatchedIn(s, i, j);
      MatchNotBefore(s, n, i, j);
      FirstMatchShifts(s, n, i, j);
      FirstIs(t, i - n, j - n);
    }
  }

  lemma MatchedIn(s: string, i: int, j: int)
    requires FirstMatch(s, i, j)
    ensures Matches(s, i, j) && 0 <= i && i + 2 <= j < |s|
  {
  }

  lemma FirstMatchShifts(s: string, n: nat, i: int, j: int)
    requires n <= i && n <= |s| && FirstMatch(s, i, j)
    ensures FirstMatch(s[n..], i - n, j - n)
  {
    hide Matches;
    var t := s[n..];
    var a := i - n;
    MatchShifts(s, n, i, j);
    forall j' | j' < j - n ensures !Matches(t, a, j') {
      MatchShifts(s, n, i, j' + n);
    }
    forall i', j' | 0 <= i' < a && 0 <= j' < |t| ensures !Matches(t, i', j') {
      MatchShifts(s, n, i' + n, j' + n);
      assert NoMatchAt(s, i' + n);
    }
  }

  lemma Unfold(s: string, env: Env, i: int, j: int)
    requires First(s) == Some((i, j))
    ensures 0 <= i && i + 2 <= j < |s|
    ensures RegexReplace(s, env) == s[..i] + (Replacement(env, s[i..j + 1]) + RegexReplace(s[j + 1..], env))
  {
    hide First, Replacement;
  }

  lemma Regroup(a: string, b: string, c: string)
    ensures a + (b + c) == a + b + c
  {
  }

  lemma SliceOfDrop(s: string, n: nat, i: int, j: int)
    requires n <= i <= j <= |s|
    ensures s[n..][i - n..j - n] == s[i..j] && s[n..][j - n..] == s[j..]
    ensures s[..n] + s[n..][..i - n] == s[..i]
  {
  }

  /** Text in which no match begins is copied. */
  lemma SkipUnmatched(s: string, env: Env, n: nat)
    requires n <= |s| && forall k :: 0 <= k < n ==> NoMatchAt(s, k)
    ensures RegexReplace(s, env) == s[..n] + RegexReplace(s[n..], env)
  {
    FirstShifts(s, n);
    if First(s).Some? {
      SkipToMatch(s, env, n, First(s).value.0, First(s).value.1);
    } else {
      assert s == s[..n] + s[n..];
    }
  }

  lemma SkipToMatch(s: string, env: Env, n: nat, i: int, j: int)
    requires n <= i && n <= |s| && First(s) == Some((i, j)) && First(s[n..]) == Some((i - n, j - n))
    ensures RegexReplace(s, env) == s[..n] + RegexReplace(s[n..], env)
  {
    hide *;
    var t := s[n..];
    Unfold(s, env, i, j);
    Unfold(t, env, i - n, j - n);
    var r := Replacement(env, s[i..j + 1]) + RegexReplace(s[j + 1..], env);
    SliceOfDrop(s, n, i, j + 1);
    Regroup(s[..n], t[..i - n], r);
  }

  /** A match at the front is replaced whole. */
  lemma TakeMatch(s: string, env: Env, j: int)
    requires ShortestMatch(s, 0, j)
    ensures 2 <= j < |s| && RegexReplace(s, env) == Replacement(env, s[..j + 1]) + RegexReplace(s[j + 1..], env)
  {
    FirstIs(s, 0, j);
    hide *;
    Unfold(s, env, 0, j);
    assert s[0..j + 1] == s[..j + 1] && s[..0] == "";
  }

  // ------------------------------------------------------------------- the scan

  /** The first `%` at least two characters on, unless whitespace comes first. */
  method FindClose(rest: string) returns (close: Option<int>)
    requires rest != "" && rest[0] == '%'
    ensures close.Some? ==> ShortestMatch(rest, 0, close.value)
    ensures close.None? ==> NoMatchAt(rest, 0)
  {
    hide JsWhitespace;
    for off := 1 to |rest|
      invariant forall k :: 1 <= k < off ==> !JsWhitespace(rest[k])
      invariant forall j :: j < off ==> !Matches(rest, 0, j)
    {
      if rest[off] == '%' && off > 1 {
        return Some(off);
      }
      if rest[off] != '%' && JsWhitespace(rest[off]) {
        return None;
      }
      assert rest[off] == '%' ==> !JsWhitespace(rest[off]) by {
        PercentIsNoWhitespace();
      }
    }
    return None;
  }

  lemma PercentIsNoWhitespace()
    ensures !JsWhitespace('%')
  {
  }

  method FindPercent(s: string) returns (start: Option<int>)
    ensures start.Some? ==> 0 <= start.value < |s| && s[start.value] == '%' && '%' !in s[..start.value]
    ensures start.None? ==> '%' !in s
  {
    for i := 0 to |s|
      invariant '%' !in s[..i]
    {
      if s[i] == '%' {
        return Some(i);
      }
      assert s[..i + 1] == s[..i] + [s[i]];
    }
    assert s[..|s|] == s;
    return None;
  }

  lemma NoPercentNoMatch(s: string, n: nat)
    requires n <= |s| && '%' !in s[..n]
    ensures forall k :: 0 <= k < n ==> NoMatchAt(s, k)
  {
    forall k | 0 <= k < n ensures NoMatchAt(s, k) {
      assert s[k] in s[..n];
    }
  }

  method Scan(html: string, env: Env) returns (out: string)
    ensures out == RegexReplace(html, env)
  {
    hide *;
    out := "";
    var rest := html;
    var start := FindPercent(rest);
    while start.Some?
      invariant start.Some? ==> 0 <= start.value < |rest| && rest[start.value] == '%' && '%' !in rest[..start.value]
      invariant start.None? ==> '%' !in rest
      invariant out + RegexReplace(rest, env) == RegexReplace(html, env)
      decreases |rest|
    {
      NoPercentNoMatch(rest, start.value);
      SkipUnmatched(rest, env, start.value);
      Regroup(out, rest[..start.value], RegexReplace(rest[start.value..], env));
      out, rest := out + rest[..start.value], rest[start.value..];
      var close := FindClose(rest);
      if close.None? {
        SkipUnmatched(rest, env, 1);
        assert rest[..1] == "%";
        Regroup(out, "%", RegexReplace(rest[1..], env));
        out, rest := out + "%", rest[1..];
      } else {
        TakeMatch(rest, env, close.value);
        Regroup(out, Replacement(env, rest[..close.value + 1]), RegexReplace(rest[close.value + 1..], env));
        out, rest := out + Replacement(env, rest[..close.value + 1]), rest[close.value + 1..];
      }
      start := FindPercent(rest);
    }
    NoPercentUnchanged(rest, env);
    out := out + rest;
  }

  lemma NoPercentUnchanged(s: string, env: Env)
    requires '%' !in s
    ensures RegexReplace(s, env) == s
  {
    assert s[..|s|] == s;
    NoPercentNoMatch(s, |s|);
    SkipUnmatched(s, env, |s|);
    assert s[|s|..] == "" && RegexReplace("", env) == "";
  }

  /** The substitution as shipped: with nothing to substitute it is not scanned. */
  method ReplaceHtmlEnv(html: string, env: Env) returns (out: string)
    ensures out == RegexReplace(html, env)
  {
    if env == map[] || '%' !in html {
      if env == map[] {
        EmptyEnvIsIdentity(html);
      } else {
        NoPercentUnchanged(html, env);
      }
      return html;
    }
    out := Scan(html, env);
  }

  // ----------------------------------------------------------------- properties

  predicate OccursAt(s: string, part: string, i: int) {
    0 <= i <= |s| - |part| && s[i..i + |part|] == part
  }

  ghost predicate Contains(s: string, part: string) {
    exists i :: OccursAt(s, part, i)
  }

  lemma ContainsShifts(s: string, n: nat, part: string)
    requires n <= |s|
    ensures Contains(s[n..], part) ==> Contains(s, part)
  {
    if i :| OccursAt(s[n..], part, i) {
      assert s[n..][i..i + |part|] == s[n + i..n + i + |part|];
      assert OccursAt(s, part, n + i);
    }
  }

  /** No `%key%` of the map occurs in the text. */
  ghost predicate NoKnownKey(s: string, env: Env) {
    forall key :: key in env ==> !Contains(s, "%" + key + "%")
  }

  lemma NoKnownKeyAfter(s: string, env: Env, n: nat)
    requires n <= |s| && NoKnownKey(s, env)
    ensures NoKnownKey(s[n..], env)
  {
    hide Contains;
    forall key | key in env ensures !Contains(s[n..], "%" + key + "%") {
      ContainsShifts(s, n, "%" + key + "%");
    }
  }

  lemma KeptMatch(s: string, env: Env, i: int, j: int)
    requires First(s) == Some((i, j)) && 0 <= i <= j < |s|
    requires j - i >= 1 && Replacement(env, s[i..j + 1]) == s[i..j + 1] && RegexReplace(s[j + 1..], env) == s[j + 1..]
    ensures RegexReplace(s, env) == s
  {
    hide First, Replacement, RegexReplace;
    calc {
      RegexReplace(s, env);
    ==  { Unfold(s, env, i, j); }
      s[..i] + (Replacement(env, s[i..j + 1]) + RegexReplace(s[j + 1..], env));
    ==
      s[..i] + (s[i..j + 1] + s[j + 1..]);
    ==
      s;
    }
  }

  /** Text with no `%key%` of the map in it is left alone, so a substitution that
      leaves none behind is a fixed point. */
  lemma {:induction false} NoKnownKeyIsIdentity(s: string, env: Env)
    requires NoKnownKey(s, env)
    ensures RegexReplace(s, env) == s
    decreases |s|
  {
    hide Contains, Replacement, NoKnownKey, Matches;
    match First(s)
    case Some((i, j)) =>
      MatchedIn(s, i, j);
      UnknownKeyStays(s, env, i, j);
      NoKnownKeyAfter(s, env, j + 1);
      NoKnownKeyIsIdentity(s[j + 1..], env);
      KeptMatch(s, env, i, j);
    case None =>
  }

  lemma UnknownKeyStays(s: string, env: Env, i: int, j: int)
    requires Matches(s, i, j) && NoKnownKey(s, env)
    ensures Replacement(env, s[i..j + 1]) == s[i..j + 1]
  {
    var text := s[i..j + 1];
    assert text == "%" + text[1..|text| - 1] + "%";
    assert OccursAt(s, text, i);
  }

  /** The first placeholder of a text becomes its key's value if the key is known, and
      stays if it is not; the text before it and the rest are as on their own. */
  lemma PlaceholderIsReplaced(pre: string, key: string, post: string, env: Env)
    requires '%' !in pre && key != "" && forall k :: 0 <= k < |key| ==> key[k] != '%' && !JsWhitespace(key[k])
    ensures RegexReplace(pre + "%" + key + "%" + post, env) ==
            pre + (if key in env then env[key] else "%" + key + "%") + RegexReplace(post, env)
  {
    var s, t, j := pre + "%" + key + "%" + post, "%" + key + "%" + post, |key| + 1;
    assert s[..|pre|] == pre && s[|pre|..] == t;
    assert t[j] == '%' && t[..j + 1] == "%" + key + "%" && t[j + 1..] == post;
    assert forall k :: 0 < k < j ==> t[k] == key[k - 1];
    assert ShortestMatch(t, 0, j);
    assert Replacement(env, t[..j + 1]) == if key in env then env[key] else "%" + key + "%" by {
      assert t[..j + 1][1..|t[..j + 1]| - 1] == key;
    }
    hide *;
    NoPercentNoMatch(s, |pre|);
    SkipUnmatched(s, env, |pre|);
    TakeMatch(t, env, j);
    Regroup(pre, Replacement(env, t[..j + 1]), RegexReplace(post, env));
  }

  lemma EmptyEnvIsIdentity(s: string)
    ensures RegexReplace(s, map[]) == s
  {
    NoKnownKeyIsIdentity(s, map[]);
  }
}

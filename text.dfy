/** String operations the client applies to serialised graphs and terminal text:
    JavaScript's `String.prototype.replaceAll` with a string pattern, the
    newline fix-up done before writing to the terminal, and `String.prototype.trim`. */
module Text {

  /** `s.replaceAll(pat, rep)` with a plain string pattern and a replacement
      that stands for itself (see `Literal`): occurrences are found left to
      right and do not overlap. An empty pattern matches before every
      character and at the end. `Substitute` is the general form. */
  function ReplaceAll(s: string, pat: string, rep: string): string
    decreases |s|
  {
    if |pat| == 0 then Interleave(s, rep)
    else if |s| < |pat| then s
    else if s[..|pat|] == pat then rep + ReplaceAll(s[|pat|..], pat, rep)
    else [s[0]] + ReplaceAll(s[1..], pat, rep)
  }

  /** What `replaceAll` does with an empty pattern. */
  function Interleave(s: string, rep: string): (r: string)
    ensures |r| == |s| + (|s| + 1) * |rep|
  {
    if s == [] then rep else rep + [s[0]] + Interleave(s[1..], rep)
  }

  /** `pat` starts at index `i` of `s`. */
  predicate OccursAt(s: string, pat: string, i: int)
  {
    0 <= i && i + |pat| <= |s| && s[i..i + |pat|] == pat
  }

  /** `pat` does not occur anywhere in `s`. */
  predicate Free(s: string, pat: string)
  {
    forall i :: 0 <= i <= |s| - |pat| ==> !OccursAt(s, pat, i)
  }

  /** No proper prefix of `p` is also a suffix of it, so two occurrences of `p`
      can never overlap. */
  predicate Unbordered(p: string)
  {
    forall k :: 0 < k < |p| ==> p[..k] != p[|p| - k..]
  }

  lemma FreeParts(a: string, b: string, pat: string)
    requires Free(a + b, pat)
    ensures Free(a, pat) && Free(b, pat)
  {
    forall i | 0 <= i <= |a| - |pat| ensures !OccursAt(a, pat, i) {
      assert (a + b)[i..i + |pat|] == a[i..i + |pat|];
      assert !OccursAt(a + b, pat, i);
    }
    forall i | 0 <= i <= |b| - |pat| ensures !OccursAt(b, pat, i) {
      assert (a + b)[|a| + i..|a| + i + |pat|] == b[i..i + |pat|];
      assert !OccursAt(a + b, pat, |a| + i);
    }
  }

  /** A string in which the pattern does not occur comes back unchanged. */
  lemma {:induction false} ReplaceAbsent(s: string, pat: string, rep: string)
    requires |pat| > 0 && Free(s, pat)
    ensures ReplaceAll(s, pat, rep) == s
    decreases |s|
  {
    if |s| >= |pat| {
      assert !OccursAt(s, pat, 0);
      assert s == [s[0]] + s[1..];
      FreeParts([s[0]], s[1..], pat);
      ReplaceAbsent(s[1..], pat, rep);
    }
  }

  /** When `a` holds no occurrence of an unbordered pattern, the first match in
      `a + pat + r` is the `pat` right after `a`. */
  lemma {:induction false} ReplaceAfterFree(a: string, pat: string, rep: string, r: string)
    requires |pat| > 0 && Unbordered(pat) && Free(a, pat)
    ensures ReplaceAll(a + pat + r, pat, rep) == a + rep + ReplaceAll(r, pat, rep)
    decreases |a|
  {
    var x := a + pat + r;
    if a == [] {
      assert x[..|pat|] == pat && x[|pat|..] == r;
      ReplaceAtMatch(x, pat, rep);
    } else {
      NoMatchAtFront(a, pat, r);
      ReplaceAtMiss(x, pat, rep);
      assert x[1..] == a[1..] + pat + r;
      assert a == [a[0]] + a[1..];
      FreeParts([a[0]], a[1..], pat);
      ReplaceAfterFree(a[1..], pat, rep, r);
      assert a + rep + ReplaceAll(r, pat, rep) == [a[0]] + (a[1..] + rep + ReplaceAll(r, pat, rep));
    }
  }

  /** One step of `replaceAll` where the pattern occurs at the front. */
  lemma ReplaceAtMatch(s: string, pat: string, rep: string)
    requires |pat| > 0 && |s| >= |pat| && s[..|pat|] == pat
    ensures ReplaceAll(s, pat, rep) == rep + ReplaceAll(s[|pat|..], pat, rep)
  {
  }

  /** One step of `replaceAll` where the pattern does not occur at the front. */
  lemma ReplaceAtMiss(s: string, pat: string, rep: string)
    requires |pat| > 0 && |s| >= |pat| && s[..|pat|] != pat
    ensures ReplaceAll(s, pat, rep) == [s[0]] + ReplaceAll(s[1..], pat, rep)
  {
  }

  /** An unbordered pattern cannot start inside a non-empty pattern-free `a`
      and end inside the `pat` that follows it. */
  lemma NoMatchAtFront(a: string, pat: string, r: string)
    requires |pat| > 0 && Unbordered(pat) && Free(a, pat) && a != []
    ensures (a + pat + r)[..|pat|] != pat
  {
    var x := a + pat + r;
    if |a| >= |pat| {
      assert x[..|pat|] == a[0..|pat|];
      assert !OccursAt(a, pat, 0);
    } else {
      var k := |pat| - |a|;
      assert pat[..k] != pat[|pat| - k..];
      assert x[..|pat|][|a|..] == pat[..k];
    }
  }

  lemma {:induction false} RestoreAfter(a: string, s: string, d: string, t: string)
    requires |d| > 0 && |t| > 0 && Unbordered(t) && Free(a + s, t)
    ensures ReplaceAll(a + ReplaceAll(s, d, t), t, d) == a + s
    decreases |s|
  {
    FreeParts(a, s, t);
    if |s| < |d| {
      ReplaceAbsent(a + s, t, d);
    } else if s[..|d|] == d {
      RestoreMatch(a, s, d, t);
    } else {
      RestoreSkip(a, s, d, t);
    }
  }

  lemma {:induction false} RestoreSkip(a: string, s: string, d: string, t: string)
    requires |d| > 0 && |t| > 0 && Unbordered(t) && Free(a + s, t)
    requires |s| >= |d| && s[..|d|] != d
    ensures ReplaceAll(a + ReplaceAll(s, d, t), t, d) == a + s
    decreases |s|, 0
  {
    var c := [s[0]];
    ReplaceAtMiss(s, d, t);
    assert a + ReplaceAll(s, d, t) == (a + c) + ReplaceAll(s[1..], d, t);
    assert a + s == (a + c) + s[1..];
    RestoreAfter(a + c, s[1..], d, t);
  }

  lemma {:induction false} RestoreMatch(a: string, s: string, d: string, t: string)
    requires |d| > 0 && |t| > 0 && Unbordered(t) && Free(a, t) && Free(s, t)
    requires |s| >= |d| && s[..|d|] == d
    ensures ReplaceAll(a + ReplaceAll(s, d, t), t, d) == a + s
    decreases |s|, 1
  {
    var s' := s[|d|..];
    RestoreHead(a, s, d, t);
    RestoreTail(s, d, t);
    assert a + d + s' == a + s;
  }

  /** The placeholder standing for the leading match of `d` turns back into `d`. */
  lemma RestoreHead(a: string, s: string, d: string, t: string)
    requires |d| > 0 && |t| > 0 && Unbordered(t) && Free(a, t)
    requires |s| >= |d| && s[..|d|] == d
    ensures ReplaceAll(a + ReplaceAll(s, d, t), t, d) == a + d + ReplaceAll(ReplaceAll(s[|d|..], d, t), t, d)
  {
    var y := ReplaceAll(s[|d|..], d, t);
    ReplaceAtMatch(s, d, t);
    var x := a + ReplaceAll(s, d, t);
    assert x == a + t + y;
    ReplaceAfterFree(a, t, d, y);
  }

  /** After a leading match of `d`, the rest of `s` comes back on its own. */
  lemma {:induction false} RestoreTail(s: string, d: string, t: string)
    requires |d| > 0 && |t| > 0 && Unbordered(t) && Free(s, t)
    requires |s| >= |d| && s[..|d|] == d
    ensures ReplaceAll(ReplaceAll(s[|d|..], d, t), t, d) == s[|d|..]
    decreases |s|, 0
  {
    var s' := s[|d|..];
    assert s == d + s';
    FreeParts(d, s', t);
    assert s' == [] + s';
    RestoreAfter([], s', d, t);
    assert ReplaceAll(s', d, t) == [] + ReplaceAll(s', d, t);
  }

  /**
   * Replacing a non-empty `d` by an unbordered placeholder `t` that does not
   * already occur in `s`, and then `t` by `d` with `replaceAll`'s own
   * substitution, gives `s` back, when `d` holds no `$` pattern.
   */
  lemma ReplaceRoundTrip(s: string, d: string, t: string)
    requires |d| > 0 && |t| > 0 && Unbordered(t) && Free(s, t) && Literal(d)
    ensures Substitute(ReplaceAll(s, d, t), t, d) == s
  {
    assert [] + s == s;
    RestoreAfter([], s, d, t);
    assert [] + ReplaceAll(s, d, t) == ReplaceAll(s, d, t);
    SubstituteLiteral(ReplaceAll(s, d, t), t, d);
  }

  // ---------------------------------------------------------------------
  // The replacement template of `replaceAll`
  // ---------------------------------------------------------------------

  /** A character that makes a pattern when it follows `$`. */
  predicate DollarCode(c: char)
  {
    c == '$' || c == '&' || c == '`' || c == '\''
  }

  /**
   * The replacement text for a match of `pat` that has `before` in front of
   * it and `after` behind it, as the GetSubstitution operation of ECMA-262
   * builds it from the template `rep`: `$$` stands for `$`, `$&` for the
   * matched text, `` $` `` for the text before the match and `$'` for the
   * text after it. A string pattern has no capture groups, so `$1` and `$<`
   * stand for themselves, as does any other character.
   */
  function Expand(rep: string, before: string, pat: string, after: string): string
    decreases |rep|
  {
    if rep == [] then []
    else if |rep| >= 2 && rep[0] == '$' && rep[1] == '$' then "$" + Expand(rep[2..], before, pat, after)
    else if |rep| >= 2 && rep[0] == '$' && rep[1] == '&' then pat + Expand(rep[2..], before, pat, after)
    else if |rep| >= 2 && rep[0] == '$' && rep[1] == '`' then before + Expand(rep[2..], before, pat, after)
    else if |rep| >= 2 && rep[0] == '$' && rep[1] == '\'' then after + Expand(rep[2..], before, pat, after)
    else [rep[0]] + Expand(rep[1..], before, pat, after)
  }

  /** `rep` holds no `$` pattern, so it stands for itself. */
  predicate Literal(rep: string)
  {
    forall i :: 0 <= i < |rep| - 1 && rep[i] == '$' ==> !DollarCode(rep[i + 1])
  }

  /** A template without `$` patterns expands to itself wherever the match is. */
  lemma {:induction false} ExpandLiteral(rep: string, before: string, pat: string, after: string)
    requires Literal(rep)
    ensures Expand(rep, before, pat, after) == rep
    decreases |rep|
  {
    if rep != [] {
      assert |rep| >= 2 && rep[0] == '$' ==> !DollarCode(rep[1]);
      assert Literal(rep[1..]) by {
        forall i | 0 <= i < |rep[1..]| - 1 && rep[1..][i] == '$'
          ensures !DollarCode(rep[1..][i + 1])
        {
          assert rep[1..][i] == rep[i + 1] && rep[1..][i + 1] == rep[i + 2];
        }
      }
      ExpandLiteral(rep[1..], before, pat, after);
      assert rep == [rep[0]] + rep[1..];
    }
  }

  /**
   * `replaceAll` for a non-empty string pattern on the part `rest` of the
   * text that follows the already scanned `before`: matches are found left
   * to right without overlap, and each is replaced by `rep` expanded for the
   * text around it.
   */
  function SubstituteRest(before: string, rest: string, pat: string, rep: string): string
    requires |pat| > 0
    decreases |rest|
  {
    if |rest| < |pat| then rest
    else if rest[..|pat|] == pat then
      Expand(rep, before, pat, rest[|pat|..]) + SubstituteRest(before + pat, rest[|pat|..], pat, rep)
    else [rest[0]] + SubstituteRest(before + [rest[0]], rest[1..], pat, rep)
  }

  /** `s.replaceAll(pat, rep)` for a non-empty string pattern and any replacement. */
  function Substitute(s: string, pat: string, rep: string): string
    requires |pat| > 0
  {
    SubstituteRest([], s, pat, rep)
  }

  lemma {:induction false} SubstituteRestLiteral(before: string, rest: string, pat: string, rep: string)
    requires |pat| > 0 && Literal(rep)
    ensures SubstituteRest(before, rest, pat, rep) == ReplaceAll(rest, pat, rep)
    decreases |rest|
  {
    if |rest| >= |pat| {
      if rest[..|pat|] == pat {
        ExpandLiteral(rep, before, pat, rest[|pat|..]);
        SubstituteRestLiteral(before + pat, rest[|pat|..], pat, rep);
      } else {
        SubstituteRestLiteral(before + [rest[0]], rest[1..], pat, rep);
      }
    }
  }

  /** With a replacement free of `$` patterns, `replaceAll` is plain replacement. */
  lemma SubstituteLiteral(s: string, pat: string, rep: string)
    requires |pat| > 0 && Literal(rep)
    ensures Substitute(s, pat, rep) == ReplaceAll(s, pat, rep)
  {
    SubstituteRestLiteral([], s, pat, rep);
  }

  /** `data.replace(/\n/g, '\r\n')`: every line feed becomes CR LF. */
  function Crlf(s: string): string
  {
    ReplaceAll(s, "\n", "\r\n")
  }

  lemma {:induction false} CrlfHead(s: string)
    requires s != []
    ensures Crlf(s) != [] && Crlf(s)[0] != '\n'
  {
    assert |s| >= |"\n"|;
  }

  /** Every line feed in the displayed text comes right after a carriage return,
      and the raw text is recovered by turning CR LF back into LF. */
  lemma {:induction false} CrlfReversible(s: string)
    ensures ReplaceAll(Crlf(s), "\r\n", "\n") == s
    decreases |s|
  {
    if s != [] {
      var rest := Crlf(s[1..]);
      CrlfReversible(s[1..]);
      if s[..1] == "\n" {
        assert Crlf(s) == "\r\n" + rest;
        assert ("\r\n" + rest)[..2] == "\r\n" && ("\r\n" + rest)[2..] == rest;
        assert s == "\n" + s[1..];
      } else {
        assert Crlf(s) == [s[0]] + rest;
        if s[1..] != [] {
          CrlfHead(s[1..]);
        }
        var x := [s[0]] + rest;
        assert |x| >= 2 ==> x[1] == rest[0];
        assert |x| >= 2 ==> x[..2] != "\r\n";
        assert x[1..] == rest;
        assert s == [s[0]] + s[1..];
      }
    }
  }

  /** The fix-up works chunk by chunk: fixing two pieces separately and joining
      them gives the fix of the joined text, since a line feed is one character. */
  lemma {:induction false} CrlfAppend(a: string, b: string)
    ensures Crlf(a + b) == Crlf(a) + Crlf(b)
    decreases |a|
  {
    if a == [] {
      assert a + b == b;
    } else {
      var ab := a + b;
      assert ab[1..] == a[1..] + b;
      CrlfAppend(a[1..], b);
      if a[0] == '\n' {
        assert ab[..1] == "\n" && a[..1] == "\n";
        ReplaceAtMatch(ab, "\n", "\r\n");
        ReplaceAtMatch(a, "\n", "\r\n");
      } else {
        assert ab[..1] != "\n" && a[..1] != "\n";
        ReplaceAtMiss(ab, "\n", "\r\n");
        ReplaceAtMiss(a, "\n", "\r\n");
      }
    }
  }

  /** The characters `String.prototype.trim` removes: white space and line
      terminators of ECMAScript, sections 12.2 and 12.3 of ECMA-262. */
  predicate IsJsSpace(c: char)
  {
    || c == '\t' || c == '\n' || c == '\U{000B}' || c == '\U{000C}' || c == '\r' || c == ' '
    || c == '\U{00A0}' || c == '\U{1680}' || ('\U{2000}' <= c <= '\U{200A}')
    || c == '\U{2028}' || c == '\U{2029}' || c == '\U{202F}' || c == '\U{205F}'
    || c == '\U{3000}' || c == '\U{FEFF}'
  }

  predicate AllSpace(s: string)
  {
    forall i :: 0 <= i < |s| ==> IsJsSpace(s[i])
  }

  /** `s.trimStart()`. */
  function TrimStart(s: string): string
  {
    if s != [] && IsJsSpace(s[0]) then TrimStart(s[1..]) else s
  }

  /** `s.trimEnd()`. */
  function TrimEnd(s: string): string
  {
    if s != [] && IsJsSpace(s[|s| - 1]) then TrimEnd(s[..|s| - 1]) else s
  }

  /** `trimStart` keeps a suffix: it drops only white space, and what it keeps
      does not start with white space. */
  lemma {:induction false} TrimStartShape(s: string)
    ensures var r := TrimStart(s);
      && |r| <= |s| && r == s[|s| - |r|..]
      && AllSpace(s[..|s| - |r|])
      && (r != [] ==> !IsJsSpace(r[0]))
    decreases |s|
  {
    if s != [] && IsJsSpace(s[0]) {
      TrimStartShape(s[1..]);
      var k := |s| - |TrimStart(s)|;
      assert s[..k] == [s[0]] + s[1..][..k - 1];
    }
  }

  /** `trimEnd` keeps a prefix: it drops only white space, and what it keeps
      does not end with white space. */
  lemma {:induction false} TrimEndShape(s: string)
    ensures var r := TrimEnd(s);
      && |r| <= |s| && r == s[..|r|]
      && AllSpace(s[|r|..])
      && (r != [] ==> !IsJsSpace(r[|r| - 1]))
    decreases |s|
  {
    if s != [] && IsJsSpace(s[|s| - 1]) {
      var p := s[..|s| - 1];
      TrimEndShape(p);
      assert s[|TrimEnd(s)|..] == p[|TrimEnd(p)|..] + [s[|s| - 1]];
    }
  }

  /** `s.trim()`. */
  function Trim(s: string): string
  {
    TrimEnd(TrimStart(s))
  }

  /** `s.trim()` is empty exactly when `s` is all white space. */
  lemma TrimEmpty(s: string)
    ensures Trim(s) == [] <==> AllSpace(s)
  {
    var u := TrimStart(s);
    TrimStartShape(s);
    TrimEndShape(u);
    assert u != [] ==> u[0] == s[|s| - |u|];
    if Trim(s) == [] {
      assert AllSpace(u[0..]);
      assert s == s[..|s| - |u|] + u;
    }
  }

  /** Trimming twice is trimming once. */
  lemma TrimIdempotent(s: string)
    ensures Trim(Trim(s)) == Trim(s)
  {
    var r := Trim(s);
    TrimStartShape(s);
    TrimEndShape(TrimStart(s));
    assert TrimStart(r) == r;
  }
}

/** The string primitives the command parser relies on, with JavaScript's semantics:
    `String.prototype.trim`, `String.prototype.split(/ +/)`, `startsWith`, `endsWith`
    and lower-casing restricted to ASCII. */
module Text {

  /** The code points `String.prototype.trim` strips: ECMAScript WhiteSpace
      (tab, vertical tab, form feed, space, no-break space, byte order mark and
      the Zs category) and LineTerminator (line feed, carriage return,
      line and paragraph separators). */
  predicate IsWhitespace(c: char)
  {
    || c == '\t' || c == '\n' || c == '\U{000B}' || c == '\U{000C}' || c == '\r'
    || c == ' ' || c == '\U{00A0}' || c == '\U{1680}'
    || ('\U{2000}' <= c <= '\U{200A}')
    || c == '\U{2028}' || c == '\U{2029}' || c == '\U{202F}' || c == '\U{205F}'
    || c == '\U{3000}' || c == '\U{FEFF}'
  }

  predicate AllWhitespace(s: string)
  {
    forall i :: 0 <= i < |s| ==> IsWhitespace(s[i])
  }

  /** Neither the first nor the last character is whitespace. */
  predicate IsTrimmed(s: string)
  {
    s == [] || (!IsWhitespace(s[0]) && !IsWhitespace(s[|s| - 1]))
  }

  predicate StartsWith(s: string, prefix: string)
  {
    |prefix| <= |s| && s[..|prefix|] == prefix
  }

  predicate EndsWith(s: string, suffix: string)
  {
    |suffix| <= |s| && s[|s| - |suffix|..] == suffix
  }

  /** Drops leading whitespace: the result is a suffix of `s`, what was dropped
      is all whitespace, and the result does not start with whitespace. */
  function TrimStart(s: string): (r: string)
    ensures |r| <= |s| && r == s[|s| - |r|..]
    ensures forall k :: 0 <= k < |s| - |r| ==> IsWhitespace(s[k])
    ensures r == [] || !IsWhitespace(r[0])
  {
    if |s| > 0 && IsWhitespace(s[0]) then
      var r := TrimStart(s[1..]);
      assert s[1..][|s| - 1 - |r|..] == s[|s| - |r|..];
      r
    else s
  }

  /** Drops trailing whitespace: the result is a prefix of `s`, what was dropped
      is all whitespace, and the result does not end with whitespace. */
  function TrimEnd(s: string): (r: string)
    ensures |r| <= |s| && r == s[..|r|]
    ensures forall k :: |r| <= k < |s| ==> IsWhitespace(s[k])
    ensures r == [] || !IsWhitespace(r[|r| - 1])
  {
    if |s| > 0 && IsWhitespace(s[|s| - 1]) then TrimEnd(s[..|s| - 1]) else s
  }

  /** `String.prototype.trim`. */
  function Trim(s: string): (r: string)
    ensures |r| <= |s|
    ensures IsTrimmed(r)
  {
    var t := TrimStart(s);
    var r := TrimEnd(t);
    assert r != [] ==> r[0] == t[0];
    r
  }

  /** `trim` removes only leading and trailing whitespace: `s` is some whitespace, then
      exactly the trimmed text, then some whitespace. */
  lemma TrimKeepsMiddle(s: string)
    ensures var i := |s| - |TrimStart(s)|;
      && i + |Trim(s)| <= |s|
      && s == s[..i] + Trim(s) + s[i + |Trim(s)|..]
      && AllWhitespace(s[..i]) && AllWhitespace(s[i + |Trim(s)|..])
  {
    PrefixOfSuffix(s, TrimStart(s), TrimEnd(TrimStart(s)));
  }

  /** A string `r` that is a prefix of a suffix `t` of `s` sits in `s` between what `t`
      leaves out and what `r` leaves out of `t`. */
  lemma PrefixOfSuffix(s: string, t: string, r: string)
    requires |t| <= |s| && t == s[|s| - |t|..] && (forall k :: 0 <= k < |s| - |t| ==> IsWhitespace(s[k]))
    requires |r| <= |t| && r == t[..|r|] && (forall k :: |r| <= k < |t| ==> IsWhitespace(t[k]))
    ensures var i := |s| - |t|;
      && s == s[..i] + r + s[i + |r|..]
      && AllWhitespace(s[..i]) && AllWhitespace(s[i + |r|..])
  {
    var i := |s| - |t|;
    var head, tail := s[..i], s[i + |r|..];
    assert tail == t[|r|..];
    assert t == r + tail;
    assert s == head + t;
    forall k | 0 <= k < |tail| ensures IsWhitespace(tail[k]) {
      assert tail[k] == t[|r| + k];
    }
  }

  /** Trimming a string that is already trimmed changes nothing. */
  lemma TrimOfTrimmed(s: string)
    requires IsTrimmed(s)
    ensures Trim(s) == s
  {
  }

  /** `trim` is idempotent. */
  lemma TrimIdempotent(s: string)
    ensures Trim(Trim(s)) == Trim(s)
  {
  }

  /** Whitespace in front of a string makes no difference to its trimmed form. */
  lemma {:induction false} TrimSkipsLeadingWhitespace(w: string, s: string)
    requires AllWhitespace(w)
    ensures Trim(w + s) == Trim(s)
  {
    TrimStartSkipsWhitespace(w, s);
  }

  lemma {:induction false} TrimStartSkipsWhitespace(w: string, s: string)
    requires AllWhitespace(w)
    ensures TrimStart(w + s) == TrimStart(s)
    decreases |w|
  {
    if w != [] {
      assert (w + s)[0] == w[0] && IsWhitespace(w[0]);
      assert (w + s)[1..] == w[1..] + s;
      assert TrimStart(w + s) == TrimStart(w[1..] + s);
      TrimStartSkipsWhitespace(w[1..], s);
    } else {
      assert w + s == s;
    }
  }

  /** Whitespace after a text does not change its trimmed form. */
  lemma TrimSkipsTrailingWhitespace(s: string, w: string)
    requires AllWhitespace(w)
    ensures Trim(s + w) == Trim(s)
  {
    TrimEndSkipsWhitespace(TrimStart(s), w);
    if TrimStart(s) == [] {
      assert AllWhitespace(s);
      TrimStartSkipsWhitespace(s, w);
      assert w + [] == w;
      TrimStartSkipsWhitespace(w, []);
    } else {
      TrimStartKeepsTail(s, w);
    }
  }

  /** Trimming a trimmed text with whitespace around it gives back that text. */
  lemma TrimAround(lead: string, body: string, trail: string)
    requires AllWhitespace(lead) && AllWhitespace(trail) && IsTrimmed(body)
    ensures Trim(lead + body + trail) == body
  {
    assert lead + body + trail == lead + (body + trail);
    TrimSkipsLeadingWhitespace(lead, body + trail);
    TrimSkipsTrailingWhitespace(body, trail);
    TrimOfTrimmed(body);
  }

  /** Once leading whitespace stops at a character of `s`, what follows `s` is kept whole. */
  lemma {:induction false} TrimStartKeepsTail(s: string, w: string)
    requires TrimStart(s) != []
    ensures TrimStart(s + w) == TrimStart(s) + w
  {
    assert (s + w)[0] == s[0];
    if IsWhitespace(s[0]) {
      assert (s + w)[1..] == s[1..] + w;
      TrimStartKeepsTail(s[1..], w);
    }
  }

  lemma {:induction false} TrimEndSkipsWhitespace(s: string, w: string)
    requires AllWhitespace(w)
    ensures TrimEnd(s + w) == TrimEnd(s)
    decreases |w|
  {
    if w != [] {
      var w' := w[..|w| - 1];
      assert (s + w)[|s + w| - 1] == w[|w| - 1];
      assert (s + w)[..|s + w| - 1] == s + w';
      TrimEndSkipsWhitespace(s, w');
    } else {
      assert s + w == s;
    }
  }

  /** `s.split(/ +/)`: the pieces of `s` between maximal runs of spaces (U+0020 only),
      including an empty first (last) piece when `s` starts (ends) with a space;
      `"".split(/ +/)` is `[""]`. */
  function Split(s: string): (r: seq<string>)
    ensures |r| >= 1
    ensures forall i :: 0 <= i < |r| ==> ' ' !in r[i]
  {
    if s == [] then [""]
    else
      var rest := Split(s[1..]);
      if s[0] != ' ' then [[s[0]] + rest[0]] + rest[1..]
      else if |s| > 1 && s[1] == ' ' then rest
      else [""] + rest
  }

  /** A run of `n` spaces. */
  function Spaces(n: nat): (r: string)
    ensures |r| == n && forall i :: 0 <= i < n ==> r[i] == ' '
  {
    if n == 0 then "" else " " + Spaces(n - 1)
  }

  /** The tokens `ts` with a run of `gaps[i]` spaces between `ts[i]` and `ts[i + 1]`. */
  function Join(ts: seq<string>, gaps: seq<nat>): string
    requires |ts| == |gaps| + 1
  {
    if gaps == [] then ts[0] else ts[0] + Spaces(gaps[0]) + Join(ts[1..], gaps[1..])
  }

  /** The tokens run together. */
  function Concat(ts: seq<string>): string
  {
    if ts == [] then "" else ts[0] + Concat(ts[1..])
  }

  /** `s` with every space taken out. */
  function RemoveSpaces(s: string): string
  {
    if s == [] then ""
    else (if s[0] == ' ' then "" else [s[0]]) + RemoveSpaces(s[1..])
  }

  /** A space-free run at the front of the input stays glued to the first piece. */
  lemma {:induction false} SplitSpaceFreePrefix(t: string, s: string)
    requires ' ' !in t
    ensures Split(t + s) == [t + Split(s)[0]] + Split(s)[1..]
    decreases |t|
  {
    if t != [] {
      assert (t + s)[0] == t[0] && t[0] in t;
      assert (t + s)[1..] == t[1..] + s;
      SplitSpaceFreePrefix(t[1..], s);
      var inner := Split(t[1..] + s);
      assert inner[0] == t[1..] + Split(s)[0] && inner[1..] == Split(s)[1..];
      assert Split(t + s) == [[t[0]] + inner[0]] + inner[1..];
      assert [t[0]] + (t[1..] + Split(s)[0]) == t + Split(s)[0];
    } else {
      assert t + s == s && t + Split(s)[0] == Split(s)[0];
    }
  }

  /** Splitting undoes joining, whatever the length of each run of spaces between the
      tokens, provided no token is empty and none contains a space. */
  lemma {:induction false} SplitJoin(ts: seq<string>, gaps: seq<nat>)
    requires |ts| == |gaps| + 1
    requires forall i :: 0 <= i < |ts| ==> ts[i] != "" && ' ' !in ts[i]
    requires forall i :: 0 <= i < |gaps| ==> gaps[i] >= 1
    ensures Split(Join(ts, gaps)) == ts
    decreases |ts|
  {
    if gaps == [] {
      SplitSpaceFreePrefix(ts[0], "");
      assert ts[0] + "" == ts[0];
    } else {
      var tail := Join(ts[1..], gaps[1..]);
      SplitJoin(ts[1..], gaps[1..]);
      JoinStartsWithHead(ts[1..], gaps[1..]);
      SplitCollapsesRun(gaps[0], tail);
      SplitAfterOneSpace(tail);
      assert Join(ts, gaps) == ts[0] + (Spaces(gaps[0]) + tail);
      SplitSpaceFreePrefix(ts[0], Spaces(gaps[0]) + tail);
      assert ts[0] + "" == ts[0];
    }
  }

  /** Two spaces in a row split like one: the `+` of `/ +/`. */
  lemma SplitCollapse(s: string)
    requires s != [] && s[0] == ' '
    ensures Split(" " + s) == Split(s)
  {
    assert (" " + s)[1..] == s;
  }

  /** A run of any positive number of spaces splits like a single space. */
  lemma {:induction false} SplitCollapsesRun(n: nat, s: string)
    requires n >= 1
    ensures Split(Spaces(n) + s) == Split(" " + s)
  {
    if n > 1 {
      var rest := Spaces(n - 1) + s;
      assert Spaces(n) + s == " " + rest;
      assert rest[0] == ' ';
      SplitCollapse(rest);
      SplitCollapsesRun(n - 1, s);
    } else {
      assert Spaces(n) == " ";
    }
  }

  /** A single space followed by a word starts an empty first piece. */
  lemma SplitAfterOneSpace(s: string)
    requires s != [] && s[0] != ' '
    ensures Split(" " + s) == [""] + Split(s)
  {
    assert (" " + s)[1..] == s;
  }

  lemma JoinStartsWithHead(ts: seq<string>, gaps: seq<nat>)
    requires |ts| == |gaps| + 1 && ts[0] != ""
    ensures Join(ts, gaps) != [] && Join(ts, gaps)[0] == ts[0][0]
  {
  }

  /** The last character of a join is the last character of the last token. */
  lemma {:induction false} JoinEndsWithLast(ts: seq<string>, gaps: seq<nat>)
    requires |ts| == |gaps| + 1 && ts[|ts| - 1] != ""
    ensures var j := Join(ts, gaps); j != [] && j[|j| - 1] == ts[|ts| - 1][|ts[|ts| - 1]| - 1]
    decreases |ts|
  {
    if gaps != [] {
      JoinEndsWithLast(ts[1..], gaps[1..]);
    }
  }

  /** Splitting loses nothing but spaces and keeps the order of everything else. */
  lemma {:induction false} SplitKeepsText(s: string)
    ensures Concat(Split(s)) == RemoveSpaces(s)
  {
    if s != [] {
      var rest := Split(s[1..]);
      SplitKeepsText(s[1..]);
      assert Concat(rest) == rest[0] + Concat(rest[1..]);
      if s[0] != ' ' {
        assert Concat([[s[0]] + rest[0]] + rest[1..]) == [s[0]] + rest[0] + Concat(rest[1..]);
      } else if |s| > 1 && s[1] == ' ' {
      } else {
        assert Concat([""] + rest) == "" + Concat(rest);
      }
    }
  }

  /** Only the first piece can be empty when `s` does not end with a space,
      and the first piece is empty exactly when `s` is empty or starts with a space. */
  lemma {:induction false} SplitPiecesNonEmpty(s: string)
    requires s == [] || s[|s| - 1] != ' '
    ensures forall i :: 1 <= i < |Split(s)| ==> Split(s)[i] != ""
    ensures Split(s)[0] != "" <==> s != [] && s[0] != ' '
  {
    if s != [] {
      SplitPiecesNonEmpty(s[1..]);
    }
  }

  /** ASCII `toLowerCase` of one character. */
  function LowerChar(c: char): char
  {
    if 'A' <= c <= 'Z' then (c as int + 32) as char else c
  }

  /** ASCII `toLowerCase`: every character lower-cased in place. */
  function ToLowerAscii(s: string): (r: string)
    ensures |r| == |s|
    ensures forall i :: 0 <= i < |s| ==> r[i] == LowerChar(s[i])
  {
    if s == [] then "" else [LowerChar(s[0])] + ToLowerAscii(s[1..])
  }

  /** Lower-casing twice is lower-casing once. */
  lemma LowerIdempotent(s: string)
    ensures ToLowerAscii(ToLowerAscii(s)) == ToLowerAscii(s)
  {
  }
}

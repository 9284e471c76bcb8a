/** The JavaScript string operations the storefront uses, on `seq<char>`:
    `trim`, `toLowerCase` (ASCII letters only), `includes`, `lastIndexOf`,
    `substring`, `split` on one character and the slug rule
    `toLowerCase().replace(/\s+/g, '-')`. */
module Text {

  /** The characters `trim()` removes and `\s` matches: ECMAScript WhiteSpace
      and LineTerminator. */
  predicate IsSpace(c: char)
  {
    c == ' ' || c == '\t' || c == '\n' || c == '\r' || c == '\U{000B}' || c == '\U{000C}'
    || c == '\U{00A0}' || c == '\U{FEFF}' || c == '\U{1680}'
    || ('\U{2000}' <= c <= '\U{200A}')
    || c == '\U{2028}' || c == '\U{2029}' || c == '\U{202F}' || c == '\U{205F}' || c == '\U{3000}'
  }

  predicate AllSpace(s: string)
  {
    forall i :: 0 <= i < |s| ==> IsSpace(s[i])
  }

  predicate NoSpace(s: string)
  {
    forall i :: 0 <= i < |s| ==> !IsSpace(s[i])
  }

  /** `trimStart()`: the white space at the front dropped (see TrimStartShape). */
  function TrimStart(s: string): (r: string)
    ensures |r| <= |s|
    decreases |s|
  {
    if s != [] && IsSpace(s[0]) then TrimStart(s[1..]) else s
  }

  /** `trimStart()` gives the longest suffix not starting with white space. */
  lemma {:induction false} TrimStartShape(s: string)
    ensures var r := TrimStart(s);
            r == s[|s| - |r|..] && AllSpace(s[..|s| - |r|]) && (r == [] || !IsSpace(r[0]))
    decreases |s|
  {
    if s != [] && IsSpace(s[0]) {
      TrimStartShape(s[1..]);
      var r := TrimStart(s[1..]);
      assert s[1..][|s| - 1 - |r|..] == s[|s| - |r|..];
      assert s[..|s| - |r|] == [s[0]] + s[1..][..|s| - 1 - |r|];
    }
  }

  /** `trimEnd()`: the white space at the back dropped (see TrimEndShape). */
  function TrimEnd(s: string): (r: string)
    ensures |r| <= |s|
    decreases |s|
  {
    if s != [] && IsSpace(s[|s| - 1]) then TrimEnd(s[..|s| - 1]) else s
  }

  /** `trimEnd()` gives the longest prefix not ending with white space. */
  lemma {:induction false} TrimEndShape(s: string)
    ensures var r := TrimEnd(s);
            r == s[..|r|] && AllSpace(s[|r|..]) && (r == [] || !IsSpace(r[|r| - 1]))
    decreases |s|
  {
    if s != [] && IsSpace(s[|s| - 1]) {
      TrimEndShape(s[..|s| - 1]);
      TrimEndStep(s[..|s| - 1], s[|s| - 1], TrimEnd(s[..|s| - 1]));
      assert s[..|s| - 1] + [s[|s| - 1]] == s;
    }
  }

  /** A white-space character after the part `trimEnd` cuts off is cut off too. */
  lemma TrimEndStep(p: string, c: char, r: string)
    requires IsSpace(c)
    requires |r| <= |p| && r == p[..|r|] && AllSpace(p[|r|..])
    ensures r == (p + [c])[..|r|] && AllSpace((p + [c])[|r|..])
  {
    assert (p + [c])[|r|..] == p[|r|..] + [c];
    assert (p + [c])[..|r|] == p[..|r|];
  }

  /** `r` sits at position `i` of `s` with nothing but white space around it. */
  predicate Bracketed(s: string, r: string, i: int)
  {
    0 <= i && i + |r| <= |s| && s[i..i + |r|] == r && AllSpace(s[..i]) && AllSpace(s[i + |r|..])
  }

  /** `trim()`: `trimStart` then `trimEnd` (see TrimShape). */
  function Trim(s: string): (r: string)
    ensures |r| <= |s|
  {
    TrimEnd(TrimStart(s))
  }

  /** `trim()` gives a contiguous piece of `s` whose ends are not white space
      and outside of which everything is white space. */
  lemma TrimShape(s: string)
    ensures exists i :: Bracketed(s, Trim(s), i)
    ensures var r := Trim(s); r == [] || (!IsSpace(r[0]) && !IsSpace(r[|r| - 1]))
  {
    var t := TrimStart(s);
    TrimStartShape(s);
    TrimEndShape(t);
    var r := TrimEnd(t);
    BracketedByParts(s, t, r);
    assert Bracketed(s, Trim(s), |s| - |t|);
    if r != [] {
      assert r[0] == t[0];
    }
  }

  /** White space cut from the front, then from the back, leaves a piece
      bracketed by white space. */
  lemma BracketedByParts(s: string, t: string, r: string)
    requires |t| <= |s| && t == s[|s| - |t|..] && AllSpace(s[..|s| - |t|])
    requires |r| <= |t| && r == t[..|r|] && AllSpace(t[|r|..])
    ensures Bracketed(s, r, |s| - |t|)
  {
    var i := |s| - |t|;
    assert s[i..i + |r|] == r;
    assert s[i + |r|..] == t[|r|..];
  }

  /** A string trims to nothing exactly when it is all white space. */
  lemma TrimEmptyIffAllSpace(s: string)
    ensures Trim(s) == "" <==> AllSpace(s)
  {
    var r := Trim(s);
    TrimShape(s);
    var i :| Bracketed(s, r, i);
    if r == "" {
      forall k | 0 <= k < |s| ensures IsSpace(s[k]) {
        if k < i {
          assert s[..i][k] == s[k];
        } else {
          assert s[i..][k - i] == s[k];
        }
      }
    } else {
      assert s[i] == r[0];
    }
  }

  /** Trimming a trimmed string changes nothing. */
  lemma TrimIdempotent(s: string)
    ensures Trim(Trim(s)) == Trim(s)
  {
    var r := Trim(s);
    TrimShape(s);
    assert TrimStart(r) == r;
    assert TrimEnd(r) == r;
  }

  // --- Case ---

  /** `toLowerCase()` on one character, for the ASCII letters; the Arabic
      names of the catalogue have no case and are left as they are. */
  function LowerChar(c: char): (d: char)
    ensures 'A' <= c <= 'Z' ==> d as int == c as int + 32
    ensures !('A' <= c <= 'Z') ==> d == c
  {
    if 'A' <= c <= 'Z' then (c as int + 32) as char else c
  }

  function Lower(s: string): (r: string)
    ensures |r| == |s|
    ensures forall i :: 0 <= i < |s| ==> r[i] == LowerChar(s[i])
  {
    seq(|s|, i requires 0 <= i < |s| => LowerChar(s[i]))
  }

  /** Lowering never makes or removes white space. */
  lemma LowerKeepsSpace(s: string)
    ensures forall i :: 0 <= i < |s| ==> (IsSpace(Lower(s)[i]) <==> IsSpace(s[i]))
  {
  }

  /** Lowering twice is lowering once. */
  lemma LowerIdempotent(s: string)
    ensures Lower(Lower(s)) == Lower(s)
  {
  }

  // --- UTF-16 code units ---

  /** A character as JavaScript stores it: one code unit below U+10000,
      otherwise a high and a low surrogate. */
  function CodeUnitsOf(c: char): (u: seq<int>)
    ensures |u| == if c as int < 0x1_0000 then 1 else 2
    ensures |u| == 1 ==> u[0] == c as int
    ensures |u| == 2 ==> 0xD800 <= u[0] < 0xDC00 <= u[1] < 0xE000
  {
    var n := c as int;
    if n < 0x1_0000 then [n]
    else [0xD800 + (n - 0x1_0000) / 0x400, 0xDC00 + (n - 0x1_0000) % 0x400]
  }

  /** The character a code unit or a surrogate pair stands for. */
  function CodePoint(u: seq<int>): int
    requires |u| == 1 || |u| == 2
  {
    if |u| == 1 then u[0] else 0x1_0000 + (u[0] - 0xD800) * 0x400 + (u[1] - 0xDC00)
  }

  /** The encoding loses nothing: the units of a character decode back to it. */
  lemma CodeUnitsRoundTrip(c: char)
    ensures CodePoint(CodeUnitsOf(c)) == c as int
  {
    var n := c as int;
    if n >= 0x1_0000 {
      var m := n - 0x1_0000;
      assert m == (m / 0x400) * 0x400 + m % 0x400;
    }
  }

  /** A text as a sequence of UTF-16 code units. */
  function CodeUnits(s: string): seq<int>
    decreases |s|
  {
    if s == [] then [] else CodeUnitsOf(s[0]) + CodeUnits(s[1..])
  }

  /** `s.length`: the number of code units. */
  function JsLength(s: string): nat
  {
    |CodeUnits(s)|
  }

  /** The units of joined texts are the joined units. */
  lemma {:induction false} CodeUnitsConcat(a: string, b: string)
    ensures CodeUnits(a + b) == CodeUnits(a) + CodeUnits(b)
    decreases |a|
  {
    if a != [] {
      assert (a + b)[1..] == a[1..] + b;
      CodeUnitsConcat(a[1..], b);
    } else {
      assert a + b == b;
    }
  }

  /** A text has between one and two code units per character, and exactly
      one per character when it has none beyond U+FFFF. */
  lemma {:induction false} JsLengthBounds(s: string)
    ensures |s| <= JsLength(s) <= 2 * |s|
    ensures (forall i :: 0 <= i < |s| ==> s[i] as int < 0x1_0000) <==> JsLength(s) == |s|
    decreases |s|
  {
    if s != [] {
      JsLengthBounds(s[1..]);
      assert forall i :: 1 <= i < |s| ==> s[i] == s[1..][i - 1];
    }
  }

  /** A slice never has more code units than the text it is cut from. */
  lemma JsLengthSlice(s: string, a: nat, b: nat)
    requires a <= b <= |s|
    ensures JsLength(s[a..b]) <= JsLength(s)
  {
    assert s == s[..a] + s[a..b] + s[b..];
    CodeUnitsConcat(s[..a] + s[a..b], s[b..]);
    CodeUnitsConcat(s[..a], s[a..b]);
  }

  // --- Searching ---

  /** `s.includes(sub)`. */
  predicate Includes(s: string, sub: string)
    decreases |s|
  {
    sub <= s || (s != [] && Includes(s[1..], sub))
  }

  /** `s.startsWith(prefix)`. */
  predicate StartsWith(s: string, prefix: string)
  {
    prefix <= s
  }

  /** `sub` occurs in `s` at position `i`. */
  predicate OccursAt(s: string, sub: string, i: int)
  {
    0 <= i && i + |sub| <= |s| && s[i..i + |sub|] == sub
  }

  /** `includes` holds exactly when `sub` occurs at some position. */
  lemma IncludesIffOccurs(s: string, sub: string)
    ensures Includes(s, sub) <==> exists i :: OccursAt(s, sub, i)
  {
    if Includes(s, sub) {
      IncludesHasPosition(s, sub);
    }
    if exists i :: OccursAt(s, sub, i) {
      var i :| OccursAt(s, sub, i);
      PositionIncluded(s, sub, i);
    }
  }

  lemma {:induction false} IncludesHasPosition(s: string, sub: string)
    requires Includes(s, sub)
    ensures exists i :: OccursAt(s, sub, i)
    decreases |s|
  {
    if sub <= s {
      assert OccursAt(s, sub, 0);
    } else {
      IncludesHasPosition(s[1..], sub);
      var i :| OccursAt(s[1..], sub, i);
      assert s[1..][i..i + |sub|] == s[i + 1..i + 1 + |sub|];
      assert OccursAt(s, sub, i + 1);
    }
  }

  lemma {:induction false} PositionIncluded(s: string, sub: string, i: int)
    requires OccursAt(s, sub, i)
    ensures Includes(s, sub)
    decreases i
  {
    if i == 0 {
      assert s[..|sub|] == sub;
    } else {
      assert s[1..][i - 1..i - 1 + |sub|] == s[i..i + |sub|];
      PositionIncluded(s[1..], sub, i - 1);
    }
  }

  /** `s.lastIndexOf(sub)`: the last position where `sub` occurs, or -1. */
  function LastIndexOf(s: string, sub: string): (r: int)
    ensures r == -1 || OccursAt(s, sub, r)
    ensures forall j :: r < j ==> !OccursAt(s, sub, j)
    decreases |s|
  {
    if |s| < |sub| then -1
    else if s[|s| - |sub|..] == sub then |s| - |sub|
    else
      var r := LastIndexOf(s[..|s| - 1], sub);
      assert forall j :: OccursAt(s, sub, j) && j + |sub| <= |s| - 1 ==> OccursAt(s[..|s| - 1], sub, j);
      r
  }

  /** `s.substring(a, b)`: both bounds are clamped to the string and swapped
      when the first is the larger. */
  function Substring(s: string, a: int, b: int): (r: string)
    ensures var lo := Clamp(Min(a, b), |s|); var hi := Clamp(Max(a, b), |s|); r == s[lo..hi]
  {
    var x := Clamp(a, |s|);
    var y := Clamp(b, |s|);
    if x <= y then s[x..y] else s[y..x]
  }

  function Clamp(i: int, n: nat): (r: nat)
    ensures r <= n
    ensures 0 <= i <= n ==> r == i
  {
    if i < 0 then 0 else if i > n then n else i
  }

  function Min(a: int, b: int): int { if a <= b then a else b }

  function Max(a: int, b: int): int { if a <= b then b else a }

  // --- Splitting ---

  /** `s.split(sep)` for a one-character separator: the pieces between the
      separators, empty ones included; a string without separators is one piece. */
  function Split(s: string, sep: char): (r: seq<string>)
    ensures |r| >= 1
    ensures forall k :: 0 <= k < |r| ==> sep !in r[k]
    decreases |s|
  {
    if s == [] then [""]
    else
      var rest := Split(s[1..], sep);
      if s[0] == sep then [""] + rest
      else [[s[0]] + rest[0]] + rest[1..]
  }

  /** `pieces.join(sep)`. */
  function Join(pieces: seq<string>, sep: char): string
  {
    if |pieces| == 0 then ""
    else if |pieces| == 1 then pieces[0]
    else pieces[0] + [sep] + Join(pieces[1..], sep)
  }

  /** Splitting loses nothing: joining the pieces gives back the string. */
  lemma {:induction false} JoinSplit(s: string, sep: char)
    ensures Join(Split(s, sep), sep) == s
    decreases |s|
  {
    if s != [] {
      var rest := Split(s[1..], sep);
      JoinSplit(s[1..], sep);
      if s[0] == sep {
        assert Split(s, sep)[1..] == rest;
        if |rest| == 1 {
          assert Join(Split(s, sep), sep) == "" + [sep] + rest[0];
        }
      } else {
        var r := Split(s, sep);
        assert r[1..] == rest[1..];
        if |rest| == 1 {
          assert Join(r, sep) == [s[0]] + rest[0];
        } else {
          assert Join(r, sep) == [s[0]] + rest[0] + [sep] + Join(rest[1..], sep);
        }
      }
    }
  }

  /** A string without the separator is a single piece. */
  lemma {:induction false} SplitNoSeparator(s: string, sep: char)
    requires sep !in s
    ensures Split(s, sep) == [s]
    decreases |s|
  {
    if s != [] {
      SplitNoSeparator(s[1..], sep);
      assert s == [s[0]] + s[1..];
    }
  }

  /** The first piece is empty exactly when the string starts with the
      separator (or is empty), and otherwise starts with the same character. */
  lemma SplitFirst(s: string, sep: char)
    ensures Split(s, sep)[0] == [] <==> s == [] || s[0] == sep
    ensures s != [] && s[0] != sep ==> Split(s, sep)[0][0] == s[0]
  {
  }

  /** There is more than one piece exactly when the separator occurs. */
  lemma {:induction false} SplitMany(s: string, sep: char)
    ensures |Split(s, sep)| > 1 <==> sep in s
    decreases |s|
  {
    if s != [] {
      SplitMany(s[1..], sep);
      assert sep in s <==> s[0] == sep || sep in s[1..];
    }
  }

  /** The last piece is what follows the last separator. */
  lemma {:induction false} SplitLast(s: string, sep: char, i: int)
    requires 0 <= i < |s| && s[i] == sep && sep !in s[i + 1..]
    ensures var r := Split(s, sep); r[|r| - 1] == s[i + 1..]
    decreases |s|
  {
    var rest := Split(s[1..], sep);
    if i == 0 {
      SplitNoSeparator(s[1..], sep);
    } else {
      assert s[1..][i - 1] == sep && s[1..][i..] == s[i + 1..];
      SplitLast(s[1..], sep, i - 1);
      SplitMany(s[1..], sep);
    }
  }

  // --- Slugs ---

  function DropSpaces(s: string): (r: string)
    ensures |r| <= |s|
    ensures r == [] || !IsSpace(r[0])
    decreases |s|
  {
    if s != [] && IsSpace(s[0]) then DropSpaces(s[1..]) else s
  }

  /** `replace(/\s+/g, '-')`: every maximal run of white space becomes one '-'. */
  function DashSpaces(s: string): (r: string)
    ensures NoSpace(r)
    ensures |r| <= |s|
    decreases |s|
  {
    if s == [] then []
    else if IsSpace(s[0]) then "-" + DashSpaces(DropSpaces(s[1..]))
    else [s[0]] + DashSpaces(s[1..])
  }

  /** Text without white space goes through unchanged. */
  lemma {:induction false} DashSpacesNoSpace(s: string)
    requires NoSpace(s)
    ensures DashSpaces(s) == s
    decreases |s|
  {
    if s != [] {
      DashSpacesNoSpace(s[1..]);
      assert s == [s[0]] + s[1..];
    }
  }

  /** A run of white space between two words becomes exactly one '-'. */
  lemma {:induction false} DashSpacesJoinsWords(a: string, gap: string, b: string)
    requires NoSpace(a) && NoSpace(b) && gap != [] && AllSpace(gap)
    ensures DashSpaces(a + gap + b) == a + "-" + b
    decreases |a|
  {
    if a == [] {
      DashSpacesFromGap(gap, b);
      assert a + gap + b == gap + b;
    } else {
      var x := a + gap + b;
      assert x[0] == a[0] && x[1..] == a[1..] + gap + b;
      DashSpacesJoinsWords(a[1..], gap, b);
      assert DashSpaces(x) == [a[0]] + DashSpaces(x[1..]);
      assert [a[0]] + (a[1..] + "-" + b) == a + "-" + b;
    }
  }

  /** A run of white space in front of a word becomes one '-'. */
  lemma DashSpacesFromGap(gap: string, b: string)
    requires NoSpace(b) && gap != [] && AllSpace(gap)
    ensures DashSpaces(gap + b) == "-" + b
  {
    var x := gap + b;
    assert x[0] == gap[0] && x[1..] == gap[1..] + b;
    assert AllSpace(gap[1..]);
    DropSpacesAll(gap[1..], b);
    DashSpacesNoSpace(b);
  }

  lemma {:induction false} DropSpacesAll(gap: string, b: string)
    requires AllSpace(gap) && NoSpace(b)
    ensures DropSpaces(gap + b) == b
    decreases |gap|
  {
    if gap != [] {
      assert (gap + b)[1..] == gap[1..] + b;
      DropSpacesAll(gap[1..], b);
    } else {
      assert gap + b == b;
    }
  }

  /** The slug the admin forms derive from an Arabic name. */
  function Slug(name: string): (r: string)
    ensures NoSpace(r)
    ensures |r| <= |name|
  {
    DashSpaces(Lower(name))
  }

  /** A name without white space slugs to its lower-case form. */
  lemma SlugOfOneWord(name: string)
    requires NoSpace(name)
    ensures Slug(name) == Lower(name)
  {
    LowerKeepsSpace(name);
    DashSpacesNoSpace(Lower(name));
  }
}

/** Python's string primitives as the pipeline uses them: whitespace and
    character-set stripping, case mapping, prefix/suffix tests, `in`,
    `split`/`join`, whitespace `split()`, `s[:n]` slicing, `sorted()` on
    strings and `textwrap.wrap`. Character classes are ASCII. */
module Text {
  import opened Base

  // ---------------------------------------------------------------------------
  // Character classes

  /** The characters `str.strip()` and `str.split()` treat as whitespace. */
  const Whitespace: set<char> := {' ', '\t', '\n', '\r', '\U{B}', '\U{C}'}

  predicate IsSpace(c: char) { c in Whitespace }

  predicate IsDigit(c: char) { '0' <= c <= '9' }

  predicate IsLetter(c: char) { 'a' <= c <= 'z' || 'A' <= c <= 'Z' }

  predicate IsAlnum(c: char) { IsDigit(c) || IsLetter(c) }

  predicate IsHexDigit(c: char) { IsDigit(c) || 'a' <= c <= 'f' || 'A' <= c <= 'F' }

  /** `s.isdigit()`: non-empty and every character a digit. */
  predicate AllDigits(s: string) { s != [] && forall i :: 0 <= i < |s| ==> IsDigit(s[i]) }

  /** `s.isalnum()`: non-empty and every character a letter or digit. */
  predicate AllAlnum(s: string) { s != [] && forall i :: 0 <= i < |s| ==> IsAlnum(s[i]) }

  predicate NoSpace(s: string) { forall i :: 0 <= i < |s| ==> !IsSpace(s[i]) }

  function LowerChar(c: char): char { if 'A' <= c <= 'Z' then (c as int + 32) as char else c }

  function UpperChar(c: char): char { if 'a' <= c <= 'z' then (c as int - 32) as char else c }

  /** `s.lower()` */
  function Lower(s: string): (r: string)
    ensures |r| == |s| && forall i :: 0 <= i < |s| ==> r[i] == LowerChar(s[i])
  {
    seq(|s|, i requires 0 <= i < |s| => LowerChar(s[i]))
  }

  /** `s.upper()` */
  function Upper(s: string): (r: string)
    ensures |r| == |s| && forall i :: 0 <= i < |s| ==> r[i] == UpperChar(s[i])
  {
    seq(|s|, i requires 0 <= i < |s| => UpperChar(s[i]))
  }

  // ---------------------------------------------------------------------------
  // Prefixes, suffixes, stripping

  predicate StartsWith(s: string, p: string) { p <= s }

  predicate EndsWith(s: string, p: string) { |p| <= |s| && s[|s| - |p|..] == p }

  /** `s.lstrip(cs)` */
  function TrimLeft(s: string, cs: set<char>): (r: string)
    ensures |r| <= |s|
    ensures r == [] || r[0] !in cs
    ensures forall i :: 0 <= i < |s| - |r| ==> s[i] in cs
    decreases |s|
  {
    if s != [] && s[0] in cs then TrimLeft(s[1..], cs) else s
  }

  /** What `TrimLeft` keeps is a suffix of its input. */
  lemma {:induction false} TrimLeftSuffix(s: string, cs: set<char>)
    ensures TrimLeft(s, cs) == s[|s| - |TrimLeft(s, cs)|..]
    decreases |s|
  {
    if s != [] && s[0] in cs {
      TrimLeftSuffix(s[1..], cs);
    }
  }

  /** `s.rstrip(cs)` */
  function TrimRight(s: string, cs: set<char>): (r: string)
    ensures |r| <= |s|
    ensures r == [] || r[|r| - 1] !in cs
    ensures forall i :: |r| <= i < |s| ==> s[i] in cs
    decreases |s|
  {
    if s != [] && s[|s| - 1] in cs then TrimRight(s[..|s| - 1], cs) else s
  }

  /** What `TrimRight` keeps is a prefix of its input. */
  lemma {:induction false} TrimRightPrefix(s: string, cs: set<char>)
    ensures TrimRight(s, cs) == s[..|TrimRight(s, cs)|]
    decreases |s|
  {
    if s != [] && s[|s| - 1] in cs {
      TrimRightPrefix(s[..|s| - 1], cs);
    }
  }

  /** The length of the leading run of ASCII digits. */
  function DigitRun(s: string): (n: nat)
    ensures n <= |s| && (forall k :: 0 <= k < n ==> IsDigit(s[k])) && (n < |s| ==> !IsDigit(s[n]))
  {
    if s == [] || !IsDigit(s[0]) then 0 else 1 + DigitRun(s[1..])
  }

  lemma {:induction false} DigitRunOf(digits: string, rest: string)
    requires forall k :: 0 <= k < |digits| ==> IsDigit(digits[k])
    requires rest == [] || !IsDigit(rest[0])
    ensures DigitRun(digits + rest) == |digits|
  {
    if digits != [] {
      assert (digits + rest)[1..] == digits[1..] + rest;
      DigitRunOf(digits[1..], rest);
    } else {
      assert digits + rest == rest;
    }
  }

  lemma {:induction false} TrimLeftRun(spaces: string, text: string)
    requires forall k :: 0 <= k < |spaces| ==> spaces[k] in Whitespace
    requires text == [] || text[0] !in Whitespace
    ensures TrimLeft(spaces + text, Whitespace) == text
  {
    if spaces != [] {
      assert (spaces + text)[1..] == spaces[1..] + text;
      TrimLeftRun(spaces[1..], text);
    } else {
      assert spaces + text == text;
    }
  }

  /** `int(s)` for a string of ASCII digits. */
  function DecimalValue(s: string): (v: nat)
    requires forall k :: 0 <= k < |s| ==> IsDigit(s[k])
  {
    if s == [] then 0
    else
      assert IsDigit(s[|s| - 1]);
      DecimalValue(s[..|s| - 1]) * 10 + (s[|s| - 1] as int - '0' as int)
  }

  /** `s.strip(cs)` */
  function Trim(s: string, cs: set<char>): string
  {
    TrimRight(TrimLeft(s, cs), cs)
  }

  /** `s.strip()` */
  function Strip(s: string): string
  {
    Trim(s, Whitespace)
  }

  /** Python's `s[:n]` for any integer `n` (a negative `n` counts from the end). */
  function Prefix<T>(s: seq<T>, n: int): (r: seq<T>)
    ensures r <= s
    ensures n >= 0 ==> |r| == Min(n, |s|)
    ensures n < 0 ==> |r| == Max(0, |s| + n)
  {
    if n >= 0 then (if n <= |s| then s[..n] else s)
    else if -n <= |s| then s[..|s| + n]
    else []
  }

  // ---------------------------------------------------------------------------
  // Searching, splitting, joining

  /** `s.find(pat)`, with `None` for -1. */
  function IndexOf(s: string, pat: string): (r: Option<nat>)
    ensures r.Some? ==> r.value + |pat| <= |s| && s[r.value..r.value + |pat|] == pat
    decreases |s|
  {
    if pat <= s then Some(0)
    else if s == [] then None
    else
      match IndexOf(s[1..], pat)
      case None => None
      case Some(i) => Some(i + 1)
  }

  /** `IndexOf` finds the first occurrence, and `None` means there is none. */
  lemma {:induction false} IndexOfFirst(s: string, pat: string)
    ensures IndexOf(s, pat).Some? ==> forall j :: 0 <= j < IndexOf(s, pat).value ==> !(pat <= s[j..])
    ensures IndexOf(s, pat).None? ==> forall j :: 0 <= j <= |s| ==> !(pat <= s[j..])
    decreases |s|
  {
    if !(pat <= s) && s != [] {
      IndexOfFirst(s[1..], pat);
      assert forall j :: 1 <= j <= |s| ==> s[j..] == s[1..][j - 1..];
    }
  }

  /** `pat in s` */
  predicate Contains(s: string, pat: string) { IndexOf(s, pat).Some? }

  /** An occurrence anywhere makes `pat in s` true. */
  lemma ContainsAt(s: string, pat: string, at: nat)
    requires at <= |s| && pat <= s[at..]
    ensures Contains(s, pat)
  {
    IndexOfFirst(s, pat);
  }

  /** An occurrence in `t` is one in `u + t`. */
  lemma ContainsAfter(u: string, t: string, pat: string)
    requires Contains(t, pat)
    ensures Contains(u + t, pat)
  {
    var i := IndexOf(t, pat).value;
    assert (u + t)[|u| + i..][..|pat|] == t[i..i + |pat|];
    ContainsAt(u + t, pat, |u| + i);
  }

  /** `s.split(sep)` for a non-empty separator. */
  function Split(s: string, sep: string): (r: seq<string>)
    requires |sep| > 0
    ensures |r| >= 1
    decreases |s|
  {
    match IndexOf(s, sep)
    case None => [s]
    case Some(i) => [s[..i]] + Split(s[i + |sep|..], sep)
  }

  /** `sep.join(parts)` */
  function Join(parts: seq<string>, sep: string): string
  {
    if |parts| == 0 then ""
    else if |parts| == 1 then parts[0]
    else parts[0] + sep + Join(parts[1..], sep)
  }

  /** `"".join(parts)` */
  function Concat(parts: seq<string>): string
  {
    if parts == [] then "" else parts[0] + Concat(parts[1..])
  }

  /** `s.replace(pat, "")`: every non-overlapping occurrence, left to right, removed. */
  function RemoveAll(s: string, pat: string): string
    requires |pat| > 0
  {
    Join(Split(s, pat), "")
  }

  /** Splitting and joining again gives back the original string. */
  lemma {:induction false} JoinSplit(s: string, sep: string)
    requires |sep| > 0
    ensures Join(Split(s, sep), sep) == s
    decreases |s|
  {
    var r := IndexOf(s, sep);
    if r.Some? {
      var i := r.value;
      var rest := s[i + |sep|..];
      var tail := Split(rest, sep);
      JoinSplit(rest, sep);
      assert Split(s, sep) == [s[..i]] + tail;
      JoinCons(s[..i], tail, sep);
      assert s == s[..i] + sep + rest;
    }
  }

  lemma JoinCons(head: string, tail: seq<string>, sep: string)
    requires |tail| >= 1
    ensures Join([head] + tail, sep) == head + sep + Join(tail, sep)
  {
    assert ([head] + tail)[1..] == tail;
  }

  /** When `pat` occurs at no position, `IndexOf` reports none. */
  lemma {:induction false} IndexOfNoneIf(s: string, pat: string)
    requires forall j :: 0 <= j <= |s| ==> !(pat <= s[j..])
    ensures IndexOf(s, pat).None?
    decreases |s|
  {
    assert s[0..] == s;
    if s != [] {
      assert forall j :: 1 <= j <= |s| ==> s[j..] == s[1..][j - 1..];
      IndexOfNoneIf(s[1..], pat);
    }
  }

  /** No occurrence of `pat` starts before the first one. */
  lemma {:induction false} NoOccurrenceBeforeFirst(s: string, pat: string, i: nat)
    requires |pat| > 0 && IndexOf(s, pat) == Some(i)
    ensures !Contains(s[..i], pat)
  {
    var t := s[..i];
    IndexOfFirst(s, pat);
    forall j | 0 <= j <= |t| ensures !(pat <= t[j..]) {
      if j < i {
        assert !(pat <= s[j..]);
        assert t[j..] <= s[j..];
      }
    }
    IndexOfNoneIf(t, pat);
  }

  /** No piece that `split` returns contains the separator. */
  lemma {:induction false} SplitPiecesAvoidSeparator(s: string, sep: string)
    requires |sep| > 0
    ensures forall p :: p in Split(s, sep) ==> !Contains(p, sep)
    decreases |s|
  {
    match IndexOf(s, sep)
    case None =>
    case Some(i) =>
      SplitPiecesAvoidSeparator(s[i + |sep|..], sep);
      SplitPiecesStep(s, sep, i, Split(s[i + |sep|..], sep));
  }

  lemma SplitPiecesStep(s: string, sep: string, i: nat, pieces: seq<string>)
    requires |sep| > 0 && IndexOf(s, sep) == Some(i)
    requires pieces == Split(s[i + |sep|..], sep)
    requires forall p :: p in pieces ==> !Contains(p, sep)
    ensures forall p :: p in Split(s, sep) ==> !Contains(p, sep)
  {
    NoOccurrenceBeforeFirst(s, sep, i);
    SplitAt(s, sep, i);
    var all := [s[..i]] + pieces;
    forall p | p in all ensures !Contains(p, sep) {
      if p != s[..i] {
        assert p in pieces;
      }
    }
  }

  /** `split` cuts at the first occurrence of the separator. */
  lemma SplitAt(s: string, sep: string, i: nat)
    requires |sep| > 0 && IndexOf(s, sep) == Some(i)
    ensures Split(s, sep) == [s[..i]] + Split(s[i + |sep|..], sep)
  {
  }

  /** The first occurrence of a one-character separator is its first position. */
  lemma {:induction false} IndexOfChar(p: string, c: char, rest: string)
    requires c !in p
    ensures IndexOf(p + [c] + rest, [c]) == Some(|p|)
    decreases |p|
  {
    var s := p + [c] + rest;
    if p == [] {
      assert [c] <= s;
    } else {
      assert s[0] == p[0] && p[0] != c;
      assert s[1..] == p[1..] + [c] + rest;
      IndexOfChar(p[1..], c, rest);
    }
  }

  /** Splitting `p + [c] + rest` on `c`, where `p` does not contain `c`,
      gives `p` followed by the pieces of `rest`. */
  lemma SplitCharCons(p: string, c: char, rest: string)
    requires c !in p
    ensures Split(p + [c] + rest, [c]) == [p] + Split(rest, [c])
  {
    var s := p + [c] + rest;
    IndexOfChar(p, c, rest);
    assert s[|p| + 1..] == rest;
    assert s[..|p|] == p;
  }

  /** Joining on one character none of the parts contains, then splitting on
      it, gives back the parts. */
  lemma {:induction false} SplitJoinChar(parts: seq<string>, c: char)
    requires |parts| >= 1
    requires forall p :: p in parts ==> c !in p
    ensures Split(Join(parts, [c]), [c]) == parts
  {
    if |parts| == 1 {
      assert parts[0] in parts;
      SplitNoChar(parts[0], c);
    } else {
      var tail := Join(parts[1..], [c]);
      assert c !in parts[0] by { assert parts[0] in parts; }
      assert forall p :: p in parts[1..] ==> c !in p by {
        forall p | p in parts[1..] ensures c !in p { assert p in parts; }
      }
      SplitJoinChar(parts[1..], c);
      SplitCharCons(parts[0], c, tail);
      assert Join(parts, [c]) == parts[0] + [c] + tail;
    }
  }

  /** A string without the separator character splits into itself. */
  lemma SplitNoChar(s: string, c: char)
    requires c !in s
    ensures Split(s, [c]) == [s]
  {
    forall j | 0 <= j <= |s| ensures !([c] <= s[j..]) {
      if j < |s| {
        assert s[j..][0] == s[j];
      }
    }
    IndexOfNoneIf(s, [c]);
  }

  // ---------------------------------------------------------------------------
  // Whitespace-separated words: `s.split()`

  /** Length of the leading run of non-whitespace characters. */
  function WordEnd(s: string): (k: nat)
    ensures k <= |s| && NoSpace(s[..k])
    ensures k < |s| ==> IsSpace(s[k])
  {
    if s == [] || IsSpace(s[0]) then 0
    else
      var k := 1 + WordEnd(s[1..]);
      assert s[..k] == [s[0]] + s[1..][..k - 1];
      k
  }

  /** `s.split()`: the maximal runs of non-whitespace characters. */
  function Words(s: string): (r: seq<string>)
    ensures forall w :: w in r ==> w != [] && NoSpace(w)
    decreases |s|
  {
    if s == [] then []
    else if IsSpace(s[0]) then Words(s[1..])
    else
      var k := WordEnd(s);
      [s[..k]] + Words(s[k..])
  }

  /** `s` with every whitespace character removed. */
  function RemoveSpaces(s: string): (r: string)
    ensures NoSpace(r)
  {
    if s == [] then ""
    else if IsSpace(s[0]) then RemoveSpaces(s[1..])
    else [s[0]] + RemoveSpaces(s[1..])
  }

  lemma {:induction false} RemoveSpacesAppend(a: string, b: string)
    ensures RemoveSpaces(a + b) == RemoveSpaces(a) + RemoveSpaces(b)
    decreases |a|
  {
    if a == [] {
      assert a + b == b;
    } else {
      assert (a + b)[0] == a[0] && (a + b)[1..] == a[1..] + b;
      RemoveSpacesAppend(a[1..], b);
    }
  }

  lemma {:induction false} RemoveSpacesOfWord(w: string)
    requires NoSpace(w)
    ensures RemoveSpaces(w) == w
    decreases |w|
  {
    if w != [] {
      assert NoSpace(w[1..]) by {
        forall i | 0 <= i < |w[1..]| ensures !IsSpace(w[1..][i]) {
          assert w[1..][i] == w[i + 1];
        }
      }
      RemoveSpacesOfWord(w[1..]);
      assert w == [w[0]] + w[1..];
    }
  }

  lemma ConcatCons(head: string, tail: seq<string>)
    ensures Concat([head] + tail) == head + Concat(tail)
  {
    assert ([head] + tail)[1..] == tail;
  }

  lemma {:induction false} ConcatAppend(a: seq<string>, b: seq<string>)
    ensures Concat(a + b) == Concat(a) + Concat(b)
    decreases |a|
  {
    if a == [] {
      assert a + b == b;
    } else {
      assert (a + b)[0] == a[0] && (a + b)[1..] == a[1..] + b;
      ConcatAppend(a[1..], b);
    }
  }

  /** The words of a string hold exactly its non-whitespace characters, in order. */
  lemma {:induction false} WordsKeepContent(s: string)
    ensures Concat(Words(s)) == RemoveSpaces(s)
    decreases |s|
  {
    if s == [] {
    } else if IsSpace(s[0]) {
      WordsKeepContent(s[1..]);
    } else {
      var k := WordEnd(s);
      WordsKeepContent(s[k..]);
      assert s == s[..k] + s[k..];
      RemoveSpacesAppend(s[..k], s[k..]);
      RemoveSpacesOfWord(s[..k]);
    }
  }

  // ---------------------------------------------------------------------------
  // textwrap.wrap

  /** A line that `Wrap` may emit: non-empty, at most `width` characters, no
      whitespace other than single inner spaces, no space at either end. */
  predicate WrappedLine(line: string, width: int)
  {
    0 < |line| <= width && line[0] != ' ' && line[|line| - 1] != ' '
    && forall i :: 0 <= i < |line| ==> line[i] == ' ' || !IsSpace(line[i])
  }

  lemma WordIsLine(w: string, width: int)
    requires NoSpace(w) && 0 < |w| <= width
    ensures WrappedLine(w, width)
  {
  }

  lemma JoinedIsLine(line: string, w: string, width: int)
    requires WrappedLine(line, width) && w != [] && NoSpace(w) && |line| + 1 + |w| <= width
    ensures WrappedLine(line + " " + w, width)
  {
    var l := line + " " + w;
    forall i | 0 <= i < |l| ensures l[i] == ' ' || !IsSpace(l[i]) {
      if i < |line| {
        assert l[i] == line[i];
      } else if i > |line| {
        assert l[i] == w[i - |line| - 1];
      }
    }
  }

  /** An over-long word cut into full-width pieces plus a last, shorter piece. */
  function Pieces(w: string, width: nat): (r: (seq<string>, string))
    requires width > 0 && NoSpace(w)
    ensures |r.1| <= width && (w != [] ==> r.1 != []) && NoSpace(r.1)
    ensures forall p :: p in r.0 ==> |p| == width && NoSpace(p)
    decreases |w|
  {
    if |w| <= width then ([], w)
    else
      var rest := Pieces(w[width..], width);
      ([w[..width]] + rest.0, rest.1)
  }

  lemma {:induction false} PiecesKeepContent(w: string, width: nat)
    requires width > 0 && NoSpace(w)
    ensures Concat(Pieces(w, width).0) + Pieces(w, width).1 == w
    decreases |w|
  {
    if |w| > width {
      PiecesKeepContent(w[width..], width);
      var head, rest := w[..width], Pieces(w[width..], width);
      PiecesUnfold(w, width);
      ConsJoin(head, rest.0, rest.1, w[width..]);
      TakeDrop(w, width);
    }
  }

  lemma PiecesUnfold(w: string, width: nat)
    requires 0 < width < |w| && NoSpace(w)
    ensures Pieces(w, width) == ([w[..width]] + Pieces(w[width..], width).0, Pieces(w[width..], width).1)
  {
  }

  lemma TakeDrop<T>(s: seq<T>, n: nat)
    requires n <= |s|
    ensures s[..n] + s[n..] == s
  {
  }

  lemma ConsJoin(head: string, parts: seq<string>, last: string, tail: string)
    requires Concat(parts) + last == tail
    ensures Concat([head] + parts) + last == head + tail
  {
    ConcatCons(head, parts);
  }

  /** Greedy filling: `line` is the line being built; each word joins it after
      one space when it fits, otherwise the line is closed and the word starts
      the next one (cut into pieces when it alone is wider than `width`). */
  function WrapFrom(words: seq<string>, width: nat, line: string): (r: seq<string>)
    requires width > 0 && (line == [] || WrappedLine(line, width))
    requires forall w :: w in words ==> w != [] && NoSpace(w)
    ensures forall l :: l in r ==> WrappedLine(l, width)
    decreases |words|
  {
    if words == [] then (if line == [] then [] else [line])
    else
      var w := words[0];
      assert w in words;
      assert forall x :: x in words[1..] ==> x in words;
      if line != [] && |line| + 1 + |w| <= width then
        JoinedIsLine(line, w, width);
        WrapFrom(words[1..], width, line + " " + w)
      else
        var p := Pieces(w, width);
        WordIsLine(p.1, width);
        assert forall q :: q in p.0 ==> WrappedLine(q, width) by {
          forall q | q in p.0 ensures WrappedLine(q, width) { WordIsLine(q, width); }
        }
        (if line == [] then [] else [line]) + p.0 + WrapFrom(words[1..], width, p.1)
  }

  /** `textwrap.wrap(text, width)`: raises `ValueError` when `width <= 0`. */
  function Wrap(text: string, width: int): (r: Result<seq<string>, string>)
    ensures r.Err? <==> width <= 0
    ensures r.Ok? ==> forall line :: line in r.value ==> WrappedLine(line, width)
  {
    if width <= 0 then Err("invalid width (must be > 0)")
    else Ok(WrapFrom(Words(text), width, ""))
  }

  lemma {:induction false} RemoveSpacesOfWords(ws: seq<string>)
    requires forall w :: w in ws ==> NoSpace(w)
    ensures RemoveSpaces(Concat(ws)) == Concat(ws)
    decreases |ws|
  {
    if ws != [] {
      assert ws[0] in ws;
      assert forall w :: w in ws[1..] ==> w in ws;
      RemoveSpacesOfWords(ws[1..]);
      RemoveSpacesAppend(ws[0], Concat(ws[1..]));
      RemoveSpacesOfWord(ws[0]);
    }
  }

  /** Greedy filling moves only whitespace: the non-space characters of the
      emitted lines are those of the open line followed by the words. */
  lemma {:induction false} WrapFromKeepsContent(words: seq<string>, width: nat, line: string)
    requires width > 0 && (line == [] || WrappedLine(line, width))
    requires forall w :: w in words ==> w != [] && NoSpace(w)
    ensures RemoveSpaces(Concat(WrapFrom(words, width, line))) == RemoveSpaces(line) + Concat(words)
    decreases |words|
  {
    if words == [] {
      if line != [] {
        assert [line][1..] == [];
        assert Concat([line]) == line + Concat([]);
        assert line + "" == line;
      }
      assert Concat(words) == "";
    } else {
      var w := words[0];
      assert w in words;
      assert forall x :: x in words[1..] ==> x in words;
      if line != [] && |line| + 1 + |w| <= width {
        JoinedIsLine(line, w, width);
        WrapFromKeepsContent(words[1..], width, line + " " + w);
        FitStep(line, w, WrapFrom(words, width, line), Concat(words[1..]));
      } else {
        var p := Pieces(w, width);
        WordIsLine(p.1, width);
        assert forall q :: q in p.0 ==> WrappedLine(q, width) by {
          forall q | q in p.0 ensures WrappedLine(q, width) { WordIsLine(q, width); }
        }
        var head: seq<string> := if line == [] then [] else [line];
        var tail := WrapFrom(words[1..], width, p.1);
        assert WrapFrom(words, width, line) == head + p.0 + tail;
        WrapFromKeepsContent(words[1..], width, p.1);
        PiecesKeepContent(w, width);
        BreakStep(line, head, p.0, p.1, tail, w, Concat(words[1..]));
      }
      assert Concat(words) == w + Concat(words[1..]);
    }
  }

  /** One step of a fitting word: the word joins the open line after a space. */
  lemma FitStep(line: string, w: string, lines: seq<string>, rest: string)
    requires NoSpace(w)
    requires RemoveSpaces(Concat(lines)) == RemoveSpaces(line + " " + w) + rest
    ensures RemoveSpaces(Concat(lines)) == RemoveSpaces(line) + (w + rest)
  {
    JoinedLineContent(line, w);
  }

  /** One step of a word that does not fit: the open line is closed and the
      word's full pieces are emitted before its last piece opens a new line. */
  lemma BreakStep(line: string, head: seq<string>, pieces: seq<string>, last: string,
                  tail: seq<string>, w: string, rest: string)
    requires head == if line == [] then [] else [line]
    requires forall q :: q in pieces ==> NoSpace(q)
    requires NoSpace(last) && Concat(pieces) + last == w
    requires RemoveSpaces(Concat(tail)) == RemoveSpaces(last) + rest
    ensures RemoveSpaces(Concat(head + pieces + tail)) == RemoveSpaces(line) + (w + rest)
  {
    RemoveSpacesOfWord(last);
    BrokenLineContent(line, head, pieces, tail);
    SeqAssoc(RemoveSpaces(line), Concat(pieces), last, rest);
  }

  lemma JoinedLineContent(line: string, w: string)
    requires NoSpace(w)
    ensures RemoveSpaces(line + " " + w) == RemoveSpaces(line) + w
  {
    RemoveSpacesAppend(line + " ", w);
    RemoveSpacesAppend(line, " ");
    RemoveSpacesOfWord(w);
    assert RemoveSpaces(" ") == RemoveSpaces(" "[1..]);
  }

  lemma SeqAssoc(a: string, b: string, c: string, d: string)
    ensures a + b + (c + d) == a + (b + c + d)
  {
  }

  lemma BrokenLineContent(line: string, head: seq<string>, pieces: seq<string>, tail: seq<string>)
    requires head == if line == [] then [] else [line]
    requires forall q :: q in pieces ==> NoSpace(q)
    ensures RemoveSpaces(Concat(head + pieces + tail))
         == RemoveSpaces(line) + Concat(pieces) + RemoveSpaces(Concat(tail))
  {
    if line == [] {
      assert Concat(head) == "" == RemoveSpaces(line);
    } else {
      assert head[1..] == [];
      assert Concat(head) == line + Concat([]);
      assert line + "" == line;
    }
    assert RemoveSpaces(Concat(head)) == RemoveSpaces(line);
    calc {
      RemoveSpaces(Concat(head + pieces + tail));
      { ConcatAppend(head + pieces, tail); }
      RemoveSpaces(Concat(head + pieces) + Concat(tail));
      { RemoveSpacesAppend(Concat(head + pieces), Concat(tail)); }
      RemoveSpaces(Concat(head + pieces)) + RemoveSpaces(Concat(tail));
      { ConcatAppend(head, pieces); RemoveSpacesAppend(Concat(head), Concat(pieces)); }
      RemoveSpaces(Concat(head)) + RemoveSpaces(Concat(pieces)) + RemoveSpaces(Concat(tail));
      { RemoveSpacesOfWords(pieces); }
      RemoveSpaces(line) + Concat(pieces) + RemoveSpaces(Concat(tail));
    }
  }

  /** `textwrap.wrap` only chooses where lines break: the wrapped lines hold
      exactly the non-whitespace characters of the text, in order. */
  lemma WrapKeepsContent(text: string, width: int)
    requires width > 0
    ensures RemoveSpaces(Concat(Wrap(text, width).value)) == RemoveSpaces(text)
  {
    WrapFromKeepsContent(Words(text), width, "");
    WordsKeepContent(text);
  }

  // ---------------------------------------------------------------------------
  // sorted() on strings

  /** Python's ordering of strings: code point by code point, a proper prefix first. */
  predicate LessEq(a: string, b: string)
    decreases |a|
  {
    a == [] || (b != [] && (a[0] < b[0] || (a[0] == b[0] && LessEq(a[1..], b[1..]))))
  }

  lemma {:induction false} LessEqTotal(a: string, b: string)
    ensures LessEq(a, b) || LessEq(b, a)
    decreases |a|
  {
    if a != [] && b != [] && a[0] == b[0] {
      LessEqTotal(a[1..], b[1..]);
    }
  }

  predicate Sorted(s: seq<string>)
  {
    forall i :: 0 < i < |s| ==> LessEq(s[i - 1], s[i])
  }

  function Insert(x: string, s: seq<string>): (r: seq<string>)
    requires Sorted(s)
    ensures |r| == |s| + 1 && Sorted(r) && multiset(r) == multiset(s) + multiset{x}
    ensures r[0] == x || (s != [] && r[0] == s[0])
    decreases |s|
  {
    if s == [] || LessEq(x, s[0]) then [x] + s
    else
      LessEqTotal(x, s[0]);
      assert s == [s[0]] + s[1..];
      [s[0]] + Insert(x, s[1..])
  }

  /** `sorted(s)` */
  function SortStrings(s: seq<string>): (r: seq<string>)
    ensures Sorted(r) && multiset(r) == multiset(s)
  {
    if s == [] then []
    else
      assert s == [s[0]] + s[1..];
      Insert(s[0], SortStrings(s[1..]))
  }
}

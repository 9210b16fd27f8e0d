/**
 * The JavaScript string operations the modelled code relies on: `trim`,
 * `toLowerCase`, `startsWith`, `split` (on one character and on /\s+/),
 * global removal `replace(/c/g, '')` and first-occurrence `replace(c, d)`.
 */
module Text {

  /** JavaScript's white space and line terminators (the class `\s`, and what `trim` removes). */
  const Whitespace: set<char> := {
    ' ', '\t', '\n', '\U{B}', '\U{C}', '\r', '\U{A0}', '\U{1680}',
    '\U{2000}', '\U{2001}', '\U{2002}', '\U{2003}', '\U{2004}', '\U{2005}', '\U{2006}',
    '\U{2007}', '\U{2008}', '\U{2009}', '\U{200A}',
    '\U{2028}', '\U{2029}', '\U{202F}', '\U{205F}', '\U{3000}', '\U{FEFF}'
  }

  predicate IsSpace(c: char) {
    c in Whitespace
  }

  predicate NoSpace(s: string) {
    forall i :: 0 <= i < |s| ==> !IsSpace(s[i])
  }

  /** `s.trimStart()` */
  function TrimStart(s: string): (r: string)
    ensures |r| <= |s| && r == s[|s| - |r|..]
    ensures r == [] || !IsSpace(r[0])
    ensures forall i :: 0 <= i < |s| - |r| ==> IsSpace(s[i])
  {
    if s == [] || !IsSpace(s[0]) then s else TrimStart(s[1..])
  }

  lemma TrimStartKeeps(s: string)
    requires s == [] || !IsSpace(s[0])
    ensures TrimStart(s) == s
  {
  }

  /** `s.trimEnd()` */
  function TrimEnd(s: string): (r: string)
    ensures |r| <= |s| && r == s[..|r|]
    ensures r == [] || !IsSpace(r[|r| - 1])
    ensures forall i :: |r| <= i < |s| ==> IsSpace(s[i])
  {
    if s == [] || !IsSpace(s[|s| - 1]) then s else TrimEnd(s[..|s| - 1])
  }

  /** `s.trim()` */
  function Trim(s: string): string {
    TrimEnd(TrimStart(s))
  }

  predicate Trimmed(s: string) {
    s == [] || (!IsSpace(s[0]) && !IsSpace(s[|s| - 1]))
  }

  /** What `trim` returns has no white space at either end and only characters of its argument. */
  lemma TrimIsTrimmed(s: string)
    ensures Trimmed(Trim(s))
    ensures forall x :: x in Trim(s) ==> x in s
  {
    var a := TrimStart(s);
    var b := TrimEnd(a);
    if b != [] {
      assert b[0] == a[0];
    }
    forall x | x in b ensures x in s {
      var i :| 0 <= i < |b| && b[i] == x;
      assert a[i] == x;
      assert s[|s| - |a| + i] == x;
    }
  }

  lemma TrimOfTrimmed(s: string)
    requires Trimmed(s)
    ensures Trim(s) == s
  {
  }

  /** `c.toLowerCase()` on the ASCII and Latin-1 letters. */
  function LowerChar(c: char): char {
    if 'A' <= c <= 'Z' || ('\U{C0}' <= c <= '\U{DE}' && c != '\U{D7}') then
      (c as int + 32) as char
    else c
  }

  /** `s.toLowerCase()` */
  function ToLower(s: string): (r: string)
    ensures |r| == |s|
  {
    seq(|s|, i requires 0 <= i < |s| => LowerChar(s[i]))
  }

  lemma LowerKeepsSpace(s: string, i: int)
    requires 0 <= i < |s|
    ensures IsSpace(ToLower(s)[i]) == IsSpace(s[i])
  {
  }

  predicate StartsWith(s: string, prefix: string) {
    |prefix| <= |s| && s[..|prefix|] == prefix
  }

  /** Number of occurrences of `c` in `s`. */
  function Count(s: string, c: char): nat {
    if s == [] then 0 else Count(s[..|s| - 1], c) + (if s[|s| - 1] == c then 1 else 0)
  }

  /** `s.split(sep)` for a one-character separator: the pieces between separators, empty ones included. */
  function Split(s: string, sep: char): (r: seq<string>)
    ensures |r| == Count(s, sep) + 1
  {
    if s == [] then [""]
    else
      var p := Split(s[..|s| - 1], sep);
      if s[|s| - 1] == sep then p + [""]
      else p[..|p| - 1] + [p[|p| - 1] + [s[|s| - 1]]]
  }

  /** No piece of a split holds the separator. */
  lemma {:induction false} SplitPieces(s: string, sep: char)
    ensures forall i :: 0 <= i < |Split(s, sep)| ==> sep !in Split(s, sep)[i]
  {
    if s != [] {
      var init := s[..|s| - 1];
      var c := s[|s| - 1];
      SplitPieces(init, sep);
      SplitSnoc(init, c, sep);
      assert s == init + [c];
      var q := Split(init, sep);
      if c != sep {
        var last := q[|q| - 1];
        assert sep !in last;
        assert sep !in last + [c];
      }
    }
  }

  lemma {:induction false} SplitWithout(s: string, sep: char)
    requires sep !in s
    ensures Split(s, sep) == [s]
  {
    if s != [] {
      var init := s[..|s| - 1];
      var c := s[|s| - 1];
      NotInInit(s, sep);
      SplitWithout(init, sep);
      SplitSnoc(init, c, sep);
    }
  }

  /** `s.split(/\s+/)`: the pieces between maximal runs of white space; a leading or trailing run yields an empty piece. */
  function SplitWs(s: string): (r: seq<string>)
    ensures |r| >= 1
    ensures forall i :: 0 <= i < |r| ==> NoSpace(r[i])
  {
    if s == [] then [""]
    else
      var init := s[..|s| - 1];
      var p := SplitWs(init);
      if IsSpace(s[|s| - 1]) then
        (if init != [] && IsSpace(init[|init| - 1]) then p else p + [""])
      else p[..|p| - 1] + [p[|p| - 1] + [s[|s| - 1]]]
  }

  /** `s.replace(/c/g, '')` */
  function RemoveChar(s: string, c: char): (r: string)
    ensures c !in r
    ensures forall x :: x in r ==> x in s
  {
    if s == [] then []
    else RemoveChar(s[..|s| - 1], c) + (if s[|s| - 1] == c then [] else [s[|s| - 1]])
  }

  /** `s.replace(c, d)` with a one-character string pattern: only the first occurrence is replaced. */
  function ReplaceFirst(s: string, c: char, d: char): (r: string)
    ensures |r| == |s|
  {
    if s == [] then []
    else if s[0] == c then [d] + s[1..]
    else [s[0]] + ReplaceFirst(s[1..], c, d)
  }

  /** `s.lastIndexOf(c)`, -1 when absent. */
  function LastIndexOf(s: string, c: char): (r: int)
    ensures -1 <= r < |s|
    ensures r >= 0 ==> s[r] == c
    ensures forall i :: r < i < |s| ==> s[i] != c
    ensures r == -1 <==> c !in s
  {
    if s == [] then -1
    else if s[|s| - 1] == c then |s| - 1
    else LastIndexOf(s[..|s| - 1], c)
  }

  /** The elements of `s` that are not in `drop` (`s.replace(/[...]/g, '')` for a character class). */
  function RemoveAll(s: string, drop: char -> bool): (r: string)
    ensures forall i :: 0 <= i < |r| ==> !drop(r[i])
  {
    if s == [] then []
    else RemoveAll(s[..|s| - 1], drop) + (if drop(s[|s| - 1]) then [] else [s[|s| - 1]])
  }

  /** The pieces of `ws` separated by `sep` (`ws.join(sep)`). */
  function Join(ws: seq<string>, sep: char): string {
    if ws == [] then ""
    else if |ws| == 1 then ws[0]
    else Join(ws[..|ws| - 1], sep) + [sep] + ws[|ws| - 1]
  }

  lemma SplitSnoc(s: string, c: char, sep: char)
    ensures var q := Split(s, sep);
      Split(s + [c], sep) == if c == sep then q + [""] else q[..|q| - 1] + [q[|q| - 1] + [c]]
  {
    assert (s + [c])[..|s|] == s;
  }

  lemma {:induction false} SplitAppendPiece(s: string, w: string, sep: char)
    requires sep !in w
    ensures var p := Split(s, sep); Split(s + w, sep) == p[..|p| - 1] + [p[|p| - 1] + w]
  {
    if w == [] {
      var p := Split(s, sep);
      assert s + w == s;
      assert p[|p| - 1] + w == p[|p| - 1];
      assert p == p[..|p| - 1] + [p[|p| - 1]];
    } else {
      var w' := w[..|w| - 1];
      NotInInit(w, sep);
      SplitAppendPiece(s, w', sep);
      SplitAppendChar(s, w, sep);
    }
  }

  /** The step of `SplitAppendPiece`: one more character, not the separator, at the end of the appended piece. */
  lemma SplitAppendChar(s: string, w: string, sep: char)
    requires w != [] && w[|w| - 1] != sep
    requires var p := Split(s, sep); Split(s + w[..|w| - 1], sep) == p[..|p| - 1] + [p[|p| - 1] + w[..|w| - 1]]
    ensures var p := Split(s, sep); Split(s + w, sep) == p[..|p| - 1] + [p[|p| - 1] + w]
  {
    var w' := w[..|w| - 1];
    var c := w[|w| - 1];
    AppendLast(s, w);
    SplitSnoc(s + w', c, sep);
    LastTwice(Split(s, sep), w', c);
  }

  /** The last element of `a + b` is the last of `b`, and what comes before it is `a` and the rest of `b`. */
  lemma DropLast<T>(a: seq<T>, b: seq<T>)
    requires b != []
    ensures (a + b)[..|a + b| - 1] == a + b[..|b| - 1]
    ensures (a + b)[|a + b| - 1] == b[|b| - 1]
  {
  }

  /** A sequence without `x` has a prefix without `x`. */
  lemma NotInInit<T>(s: seq<T>, x: T)
    requires s != [] && x !in s
    ensures x !in s[..|s| - 1]
    ensures s == s[..|s| - 1] + [s[|s| - 1]]
  {
    var init := s[..|s| - 1];
    forall i | 0 <= i < |init| ensures init[i] != x { assert init[i] == s[i]; }
  }

  lemma Assoc<T>(x: seq<T>, y: seq<T>, z: seq<T>)
    ensures x + (y + z) == (x + y) + z
  {
  }

  /** A non-empty sequence is its prefix and its last element. */
  lemma ButLast<T>(s: seq<T>)
    requires s != []
    ensures s == s[..|s| - 1] + [s[|s| - 1]]
  {
  }

  lemma NilAppend<T>(a: seq<T>)
    ensures [] + a == a
  {
  }

  lemma AppendNil<T>(a: seq<T>)
    ensures a + [] == a
  {
  }

  /** A non-empty text is its prefix and its last character, also after a prefix of its own. */
  lemma AppendLast(s: string, w: string)
    requires w != []
    ensures w == w[..|w| - 1] + [w[|w| - 1]]
    ensures s + w == (s + w[..|w| - 1]) + [w[|w| - 1]]
  {
  }

  /** Extending the last piece twice is extending it once by both parts. */
  lemma LastTwice(p: seq<string>, w: string, c: char)
    requires |p| >= 1
    ensures var q := p[..|p| - 1] + [p[|p| - 1] + w];
      q[..|q| - 1] + [q[|q| - 1] + [c]] == p[..|p| - 1] + [p[|p| - 1] + (w + [c])]
  {
    var q := p[..|p| - 1] + [p[|p| - 1] + w];
    assert q[..|q| - 1] == p[..|p| - 1];
    assert q[|q| - 1] + [c] == p[|p| - 1] + (w + [c]);
  }

  /** Splitting a joined list gives the list back when no piece holds the separator. */
  lemma {:induction false} SplitJoin(ws: seq<string>, sep: char)
    requires |ws| >= 1
    requires forall i :: 0 <= i < |ws| ==> sep !in ws[i]
    ensures Split(Join(ws, sep), sep) == ws
  {
    if |ws| == 1 {
      SplitAppendPiece("", ws[0], sep);
      NilAppend(ws[0]);
    } else {
      var init := ws[..|ws| - 1];
      var w := ws[|ws| - 1];
      assert forall i :: 0 <= i < |init| ==> init[i] == ws[i];
      SplitJoin(init, sep);
      SplitSnoc(Join(init, sep), sep, sep);
      SplitAppendPiece(Join(init, sep) + [sep], w, sep);
      DropLast(init, [""]);
      AppendNil(init);
      NilAppend(w);
      ButLast(ws);
    }
  }

  lemma SplitWsSnoc(s: string, c: char)
    requires !IsSpace(c)
    ensures var q := SplitWs(s); SplitWs(s + [c]) == q[..|q| - 1] + [q[|q| - 1] + [c]]
  {
    assert (s + [c])[..|s|] == s;
  }

  lemma {:induction false} SplitWsAppendWord(s: string, w: string)
    requires NoSpace(w)
    ensures var p := SplitWs(s); SplitWs(s + w) == p[..|p| - 1] + [p[|p| - 1] + w]
  {
    if w == [] {
      var p := SplitWs(s);
      AppendNil(s);
      AppendNil(p[|p| - 1]);
      ButLast(p);
    } else {
      var w' := w[..|w| - 1];
      assert NoSpace(w') by {
        forall i | 0 <= i < |w'| ensures !IsSpace(w'[i]) { assert w'[i] == w[i]; }
      }
      SplitWsAppendWord(s, w');
      SplitWsAppendChar(s, w);
    }
  }

  /** The step of `SplitWsAppendWord`: one more character, not white space, at the end of the appended word. */
  lemma SplitWsAppendChar(s: string, w: string)
    requires w != [] && !IsSpace(w[|w| - 1])
    requires var p := SplitWs(s); SplitWs(s + w[..|w| - 1]) == p[..|p| - 1] + [p[|p| - 1] + w[..|w| - 1]]
    ensures var p := SplitWs(s); SplitWs(s + w) == p[..|p| - 1] + [p[|p| - 1] + w]
  {
    var w' := w[..|w| - 1];
    var c := w[|w| - 1];
    AppendLast(s, w);
    SplitWsSnoc(s + w', c);
    LastTwice(SplitWs(s), w', c);
  }

  /** Splitting words joined by single spaces on /\s+/ gives the words back. */
  lemma {:induction false} SplitWsJoin(ws: seq<string>)
    requires |ws| >= 1
    requires forall i :: 0 <= i < |ws| ==> ws[i] != [] && NoSpace(ws[i])
    ensures SplitWs(Join(ws, ' ')) == ws
  {
    if |ws| == 1 {
      SplitWsAppendWord("", ws[0]);
      NilAppend(ws[0]);
    } else {
      var init := ws[..|ws| - 1];
      var w := ws[|ws| - 1];
      assert forall i :: 0 <= i < |init| ==> init[i] == ws[i];
      SplitWsJoin(init);
      SplitWsJoinStep(init, w);
      ButLast(ws);
    }
  }

  /** The step of `SplitWsJoin`: one more word after a space. */
  lemma SplitWsJoinStep(init: seq<string>, w: string)
    requires |init| >= 1 && init[|init| - 1] != [] && NoSpace(w)
    requires SplitWs(Join(init, ' ')) == init
    ensures SplitWs(Join(init, ' ') + [' '] + w) == init + [w]
  {
    SplitWsAfterWord(init);
    SplitWsAppendWord(Join(init, ' ') + [' '], w);
    DropLast(init, [""]);
    AppendNil(init);
    NilAppend(w);
  }

  /** A space after words joined by spaces opens an empty last piece. */
  lemma SplitWsAfterWord(ws: seq<string>)
    requires |ws| >= 1 && ws[|ws| - 1] != []
    requires SplitWs(Join(ws, ' ')) == ws
    ensures SplitWs(Join(ws, ' ') + [' ']) == ws + [""]
  {
    var j := Join(ws, ' ');
    JoinEndsWith(ws, ' ');
    DropLast(j, [' ']);
    AppendNil(j);
    assert !IsSpace(j[|j| - 1]);
  }

  lemma JoinEndsWith(ws: seq<string>, sep: char)
    requires |ws| >= 1 && ws[|ws| - 1] != []
    ensures var j := Join(ws, sep); |j| > 0 && j[|j| - 1] == ws[|ws| - 1][|ws[|ws| - 1]| - 1]
  {
  }

  /** The pieces of `ws` run together (`ws.join('')`). */
  function Concat(ws: seq<string>): string {
    if ws == [] then "" else Concat(ws[..|ws| - 1]) + ws[|ws| - 1]
  }

  lemma {:induction false} RemoveCharAppend(a: string, b: string, c: char)
    ensures RemoveChar(a + b, c) == RemoveChar(a, c) + RemoveChar(b, c)
  {
    if b == [] {
      AppendNil(a);
      AppendNil(RemoveChar(a, c));
    } else {
      RemoveCharAppend(a, b[..|b| - 1], c);
      DropLast(a, b);
    }
  }

  lemma {:induction false} RemoveCharAbsent(s: string, c: char)
    requires c !in s
    ensures RemoveChar(s, c) == s
  {
    if s != [] {
      NotInInit(s, c);
      RemoveCharAbsent(s[..|s| - 1], c);
    }
  }

  /** Removing the separator from joined pieces that do not hold it runs the pieces together. */
  lemma {:induction false} RemoveCharJoin(ws: seq<string>, sep: char)
    requires forall i :: 0 <= i < |ws| ==> sep !in ws[i]
    ensures RemoveChar(Join(ws, sep), sep) == Concat(ws)
  {
    if |ws| == 1 {
      RemoveCharAbsent(ws[0], sep);
      assert ws[..0] == [];
      assert Concat(ws) == "" + ws[0] == ws[0];
    } else if |ws| > 1 {
      var init := ws[..|ws| - 1];
      var w := ws[|ws| - 1];
      assert forall i :: 0 <= i < |init| ==> init[i] == ws[i];
      RemoveCharJoin(init, sep);
      RemoveCharAfterSep(Join(init, sep), sep, w);
    }
  }

  /** Removing `c` from a text, one `c` and a piece without `c` keeps the piece whole. */
  lemma RemoveCharAfterSep(j: string, c: char, w: string)
    requires c !in w
    ensures RemoveChar(j + [c] + w, c) == RemoveChar(j, c) + w
  {
    RemoveCharAppend(j + [c], w, c);
    RemoveCharAppend(j, [c], c);
    RemoveCharAbsent(w, c);
    RemoveCharSingle(c);
    AppendNil(RemoveChar(j, c));
  }

  /** `replace(c, d)` rewrites the first `c`, the one right after a prefix without `c`. */
  lemma {:induction false} ReplaceFirstAfter(a: string, c: char, d: char, b: string)
    requires c !in a
    ensures ReplaceFirst(a + [c] + b, c, d) == a + [d] + b
  {
    var s := a + [c] + b;
    if a == [] {
      assert s[0] == c && s[1..] == b;
    } else {
      assert s[0] == a[0] && a[0] != c;
      assert s[1..] == a[1..] + [c] + b;
      assert c !in a[1..] by {
        forall i | 0 <= i < |a| - 1 ensures a[1..][i] != c { assert a[1..][i] == a[i + 1]; }
      }
      ReplaceFirstAfter(a[1..], c, d, b);
      assert a == [a[0]] + a[1..];
    }
  }

  lemma {:induction false} ReplaceFirstMembers(s: string, c: char, d: char, x: char)
    requires x in ReplaceFirst(s, c, d)
    ensures x in s || x == d
  {
    if s != [] && s[0] != c {
      if x != s[0] {
        ReplaceFirstMembers(s[1..], c, d, x);
      }
    }
  }

  lemma {:induction false} RemoveAllAppend(a: string, b: string, drop: char -> bool)
    ensures RemoveAll(a + b, drop) == RemoveAll(a, drop) + RemoveAll(b, drop)
  {
    if b == [] {
      assert a + b == a;
    } else {
      RemoveAllAppend(a, b[..|b| - 1], drop);
      assert (a + b)[..|a + b| - 1] == a + b[..|b| - 1];
    }
  }

  lemma {:induction false} RemoveAllKeeps(s: string, drop: char -> bool)
    requires forall i :: 0 <= i < |s| ==> !drop(s[i])
    ensures RemoveAll(s, drop) == s
  {
    if s != [] {
      RemoveAllKeeps(s[..|s| - 1], drop);
      assert s == s[..|s| - 1] + [s[|s| - 1]];
    }
  }

  lemma RemoveCharSingle(c: char)
    ensures RemoveChar([c], c) == []
  {
    assert [c][..0] == [];
  }

  /** Removing the one `c` between two pieces that do not hold it. */
  lemma RemoveCharBetween(a: string, c: char, b: string)
    requires c !in a && c !in b
    ensures RemoveChar(a + [c] + b, c) == a + b
  {
    RemoveCharAppend(a + [c], b, c);
    RemoveCharAbsent(b, c);
    RemoveCharLast(a, c);
  }

  /** Removing `c` from a text without it followed by one `c`. */
  lemma RemoveCharLast(a: string, c: char)
    requires c !in a
    ensures RemoveChar(a + [c], c) == a
  {
    RemoveCharAppend(a, [c], c);
    RemoveCharAbsent(a, c);
    RemoveCharSingle(c);
    AppendNil(a);
  }

  lemma {:induction false} CountIn(s: string, c: char)
    requires c in s
    ensures Count(s, c) >= 1
  {
    if s[|s| - 1] != c {
      var init := s[..|s| - 1];
      var k :| 0 <= k < |s| && s[k] == c;
      assert init[k] == c;
      CountIn(init, c);
    }
  }

  lemma ExtendLast(a: string, q: seq<string>, c: char)
    requires |q| >= 1
    ensures var p := [a] + q; p[..|p| - 1] + [p[|p| - 1] + [c]] == [a] + (q[..|q| - 1] + [q[|q| - 1] + [c]])
  {
    var p := [a] + q;
    assert p[..|p| - 1] == [a] + q[..|q| - 1];
  }

  lemma SplitFirstSep(a: string, sep: char, b: string)
    requires Split(a + [sep] + b, sep) == [a] + Split(b, sep)
    ensures Split(a + [sep] + (b + [sep]), sep) == [a] + Split(b + [sep], sep)
  {
    Assoc(a + [sep], b, [sep]);
    SplitSnoc(a + [sep] + b, sep, sep);
    SplitSnoc(b, sep, sep);
  }

  lemma SplitFirstChar(a: string, sep: char, b: string, c: char)
    requires Split(a + [sep] + b, sep) == [a] + Split(b, sep)
    requires c != sep
    ensures Split(a + [sep] + (b + [c]), sep) == [a] + Split(b + [c], sep)
  {
    Assoc(a + [sep], b, [c]);
    SplitSnoc(a + [sep] + b, c, sep);
    SplitSnoc(b, c, sep);
    ExtendLast(a, Split(b, sep), c);
  }

  /** The first piece of a split is the text before the first separator. */
  lemma {:induction false} SplitFirst(a: string, sep: char, b: string)
    requires sep !in a
    ensures Split(a + [sep] + b, sep) == [a] + Split(b, sep)
  {
    if b == [] {
      SplitWithout(a, sep);
      SplitSnoc(a, sep, sep);
      assert a + [sep] + b == a + [sep];
    } else {
      var b' := b[..|b| - 1];
      SplitFirst(a, sep, b');
      if b[|b| - 1] == sep {
        SplitFirstSep(a, sep, b');
      } else {
        SplitFirstChar(a, sep, b', b[|b| - 1]);
      }
      ButLast(b);
    }
  }

  /** The two first pieces of a split when the second piece runs up to a further separator or to the end. */
  lemma FirstTwoPieces(a: string, sep: char, f: string, rest: string)
    requires sep !in a && sep !in f
    requires rest == [] || rest[0] == sep
    ensures var p := Split(a + [sep] + f + rest, sep); |p| >= 2 && p[0] == a && p[1] == f
  {
    assert a + [sep] + f + rest == a + [sep] + (f + rest);
    SplitFirst(a, sep, f + rest);
    if rest == [] {
      assert f + rest == f;
      SplitWithout(f, sep);
    } else {
      assert f + rest == f + [sep] + rest[1..];
      SplitFirst(f, sep, rest[1..]);
    }
  }

  lemma TrimmedAppend(p: string, q: string)
    requires Trimmed(p) && Trimmed(q)
    ensures Trimmed(p + q)
  {
    if p != [] && q != [] {
      assert (p + q)[0] == p[0];
      assert (p + q)[|p + q| - 1] == q[|q| - 1];
    } else if p == [] {
      assert p + q == q;
    } else {
      assert p + q == p;
    }
  }

  /** The trimmed pieces of `ws` (`ws.map(w => w.trim())`). */
  function TrimAll(ws: seq<string>): (r: seq<string>)
    ensures |r| == |ws|
  {
    seq(|ws|, i requires 0 <= i < |ws| => Trim(ws[i]))
  }
}

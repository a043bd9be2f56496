/** String operations the source borrows from Python and JavaScript:
    prefix and suffix tests, substring search, `str.split('\n')`,
    `str.split()` on whitespace and decimal rendering of integers. */
module Text {
  import opened Wrappers

  /** `s.startswith(p)` / `s.startsWith(p)`. */
  predicate StartsWith(s: string, p: string) {
    |p| <= |s| && s[..|p|] == p
  }

  /** `s.endswith(p)` / `s.endsWith(p)`: exact and case-sensitive. */
  predicate EndsWith(s: string, p: string) {
    |p| <= |s| && s[|s| - |p|..] == p
  }

  /** Python's `sub in s`. */
  predicate Contains(s: string, sub: string)
    decreases |s|
  {
    StartsWith(s, sub) || (|s| > 0 && Contains(s[1..], sub))
  }

  /** `Contains` holds exactly when `sub` occurs at some offset of `s`. */
  lemma {:induction false} ContainsAt(s: string, sub: string, k: nat)
    requires k + |sub| <= |s| && s[k..k + |sub|] == sub
    ensures Contains(s, sub)
    decreases k
  {
    if k > 0 {
      assert s[1..][k - 1..k - 1 + |sub|] == s[k..k + |sub|];
      ContainsAt(s[1..], sub, k - 1);
    }
  }

  // ----- str.split(sep) -----

  /** Python's `s.split(sep)` for a one-character separator: never empty,
      keeps empty pieces, and no piece holds the separator. */
  function SplitOn(s: string, sep: char): (parts: seq<string>)
    ensures |parts| >= 1
    ensures forall i :: 0 <= i < |parts| ==> sep !in parts[i]
    decreases |s|
  {
    if s == [] then [[]]
    else
      var rest := SplitOn(s[1..], sep);
      if s[0] == sep then [[]] + rest
      else [[s[0]] + rest[0]] + rest[1..]
  }

  /** `sep.join(parts)`. */
  function Join(parts: seq<string>, sep: char): string
    requires |parts| >= 1
    decreases |parts|
  {
    if |parts| == 1 then parts[0] else parts[0] + [sep] + Join(parts[1..], sep)
  }

  /** Splitting loses nothing: joining the pieces gives the text back. */
  lemma {:induction false} JoinSplitOn(s: string, sep: char)
    ensures Join(SplitOn(s, sep), sep) == s
    decreases |s|
  {
    if s != [] {
      var rest := SplitOn(s[1..], sep);
      JoinSplitOn(s[1..], sep);
      if s[0] != sep {
        if |rest| == 1 {
          assert SplitOn(s, sep) == [[s[0]] + rest[0]];
        } else {
          var parts := SplitOn(s, sep);
          assert parts[1..] == rest[1..];
          assert Join(parts, sep) == [s[0]] + rest[0] + [sep] + Join(rest[1..], sep);
        }
      }
    }
  }

  // ----- str.split() -----

  /** The characters Python's `str.isspace` accepts. */
  predicate IsSpace(c: char) {
    c == ' ' || ('\t' <= c <= '\r') || ('\U{1C}' <= c <= '\U{1F}') || c == '\U{85}' || c == '\U{A0}'
    || c == '\U{1680}' || ('\U{2000}' <= c <= '\U{200A}') || c == '\U{2028}' || c == '\U{2029}'
    || c == '\U{202F}' || c == '\U{205F}' || c == '\U{3000}'
  }

  /** The string holds no whitespace. */
  predicate NoSpace(w: string) {
    forall j :: 0 <= j < |w| ==> !IsSpace(w[j])
  }

  /** Python's `s.split()` with no argument: the maximal runs of
      non-whitespace characters, in order. */
  function Words(s: string): (ws: seq<string>)
    ensures forall i :: 0 <= i < |ws| ==> |ws[i]| > 0
    ensures forall i :: 0 <= i < |ws| ==> NoSpace(ws[i])
    ensures s != [] && !IsSpace(s[0]) ==> |ws| > 0 && ws[0][0] == s[0]
    decreases |s|
  {
    if s == [] then []
    else
      var rest := Words(s[1..]);
      if IsSpace(s[0]) then rest
      else if |s| > 1 && !IsSpace(s[1]) then [[s[0]] + rest[0]] + rest[1..]
      else [[s[0]]] + rest
  }

  /** A non-empty run without whitespace is a single word. */
  lemma {:induction false} WordsOfRun(w: string)
    requires |w| > 0 && NoSpace(w)
    ensures Words(w) == [w]
    decreases |w|
  {
    assert !IsSpace(w[0]);
    if |w| == 1 {
      assert w[1..] == [] && [w[0]] == w;
    } else {
      assert !IsSpace(w[1]);
      WordsOfRun(w[1..]);
      assert [w[0]] + w[1..] == w;
    }
  }

  /** A leading whitespace character is dropped. */
  lemma WordsConsSpace(x: char, t: string)
    requires IsSpace(x)
    ensures Words([x] + t) == Words(t)
  {
    assert ([x] + t)[1..] == t;
  }

  /** A leading character followed by a non-whitespace one starts the
      first word of the rest. */
  lemma WordsConsJoin(x: char, t: string)
    requires !IsSpace(x) && t != [] && !IsSpace(t[0])
    ensures |Words(t)| > 0
    ensures Words([x] + t) == [[x] + Words(t)[0]] + Words(t)[1..]
  {
    var s := [x] + t;
    assert s[0] == x && s[1] == t[0] && s[1..] == t;
  }

  /** A leading character followed by whitespace or nothing is a word by
      itself. */
  lemma WordsConsAlone(x: char, t: string)
    requires !IsSpace(x) && (t == [] || IsSpace(t[0]))
    ensures Words([x] + t) == [[x]] + Words(t)
  {
    var s := [x] + t;
    assert s[0] == x && s[1..] == t;
    assert |s| > 1 ==> s[1] == t[0];
  }

  lemma AppendAssoc<T>(a: seq<T>, b: seq<T>, c: seq<T>)
    ensures a + (b + c) == (a + b) + c
  {
  }

  lemma AppendTail<T>(a: seq<T>, b: seq<T>)
    requires |a| > 0
    ensures (a + b)[0] == a[0] && (a + b)[1..] == a[1..] + b
  {
  }

  /** The steps of `WordsAtSpace`: putting one character `x` in front
      of `t` keeps the split at `c` in `u == t + [c] + b` once it holds
      for `t`, whether `x` is whitespace, joins the first word of `t`, or
      is a word by itself. */
  lemma WordsAtSpaceSpace(x: char, t: string, u: string, b: string)
    requires IsSpace(x)
    requires Words(u) == Words(t) + Words(b)
    ensures Words([x] + u) == Words([x] + t) + Words(b)
  {
    WordsConsSpace(x, u);
    WordsConsSpace(x, t);
  }

  lemma WordsAtSpaceJoin(x: char, t: string, u: string, b: string)
    requires !IsSpace(x) && t != [] && !IsSpace(t[0]) && u != [] && u[0] == t[0]
    requires Words(u) == Words(t) + Words(b)
    ensures Words([x] + u) == Words([x] + t) + Words(b)
  {
    WordsConsJoin(x, u);
    WordsConsJoin(x, t);
    var wt, wb := Words(t), Words(b);
    AppendTail(wt, wb);
    AppendAssoc([[x] + wt[0]], wt[1..], wb);
  }

  lemma WordsAtSpaceAlone(x: char, t: string, u: string, b: string)
    requires !IsSpace(x) && (t == [] || IsSpace(t[0])) && u != [] && IsSpace(u[0])
    requires Words(u) == Words(t) + Words(b)
    ensures Words([x] + u) == Words([x] + t) + Words(b)
  {
    WordsConsAlone(x, u);
    WordsConsAlone(x, t);
    AppendAssoc([[x]], Words(t), Words(b));
  }

  /** A whitespace character separates the words before it from the words
      after it. With `WordsOfRun` and `Words([]) == []` this fixes the
      result on every string: the maximal non-whitespace runs, in order. */
  lemma {:induction false} WordsAtSpace(a: string, c: char, b: string)
    requires IsSpace(c)
    ensures Words(a + [c] + b) == Words(a) + Words(b)
    decreases |a|
  {
    if a == [] {
      assert a + [c] + b == [c] + b;
      WordsConsSpace(c, b);
    } else {
      var x, t := a[0], a[1..];
      var u := t + [c] + b;
      assert a == [x] + t;
      assert a + [c] + b == [x] + u;
      assert u[0] == if t == [] then c else t[0];
      WordsAtSpace(t, c, b);
      if IsSpace(x) {
        WordsAtSpaceSpace(x, t, u, b);
      } else if t != [] && !IsSpace(t[0]) {
        WordsAtSpaceJoin(x, t, u, b);
      } else {
        WordsAtSpaceAlone(x, t, u, b);
      }
    }
  }

  /** Two runs separated by a space are the first two words. */
  lemma TwoRunsThenRest(p: string, name: string, rest: string)
    requires |p| > 0 && NoSpace(p)
    requires |name| > 0 && NoSpace(name)
    ensures Words(p + [' '] + name + [' '] + rest) == [p, name] + Words(rest)
  {
    var tail := name + [' '] + rest;
    assert p + [' '] + name + [' '] + rest == p + [' '] + tail;
    WordsAtSpace(p, ' ', tail);
    WordsAtSpace(name, ' ', rest);
    WordsOfRun(p);
    WordsOfRun(name);
    AppendAssoc([p], [name], Words(rest));
    assert [p] + [name] == [p, name];
  }

  // ----- decimal numbers -----

  predicate IsDigit(c: char) {
    '0' <= c <= '9'
  }

  function DigitChar(d: nat): (c: char)
    requires d < 10
    ensures IsDigit(c)
  {
    (('0' as int) + d) as char
  }

  function DigitValue(c: char): nat
    requires IsDigit(c)
  {
    (c as int) - ('0' as int)
  }

  /** `str(n)` / `${n}` for a natural number: decimal digits, no sign, no
      leading zero. */
  function NatToString(n: nat): (r: string)
    ensures |r| >= 1
    ensures forall i :: 0 <= i < |r| ==> IsDigit(r[i])
    ensures n > 0 ==> r[0] != '0'
    decreases n
  {
    if n < 10 then [DigitChar(n)] else NatToString(n / 10) + [DigitChar(n % 10)]
  }

  /** Reads a non-empty run of decimal digits. */
  function ParseNat(s: string): Option<nat>
    decreases |s|
  {
    if |s| == 0 || !IsDigit(s[|s| - 1]) then None
    else if |s| == 1 then Some(DigitValue(s[0]))
    else
      match ParseNat(s[..|s| - 1])
      case None => None
      case Some(v) => Some(v * 10 + DigitValue(s[|s| - 1]))
  }

  /** Reading back what `NatToString` wrote gives the number again. */
  lemma {:induction false} ParseNatToString(n: nat)
    ensures ParseNat(NatToString(n)) == Some(n)
    decreases n
  {
    if n >= 10 {
      var s := NatToString(n);
      assert s[..|s| - 1] == NatToString(n / 10);
      ParseNatToString(n / 10);
    }
  }
}

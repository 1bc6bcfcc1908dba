/**
 * String helpers shared by the core: the pieces of `std::string`, `std::getline`,
 * `std::to_string`, `std::stoi`/`std::stoull` and `<cctype>` that the C++ code relies on,
 * written out over `seq<char>`.
 */
module Text {
  import opened Wrappers

  // ---------------------------------------------------------------------------
  // Character classes (the "C" locale)
  // ---------------------------------------------------------------------------

  /** `isspace` in the "C" locale: space, \t, \n, \v, \f, \r. */
  predicate IsSpace(c: char) {
    c == ' ' || c == '\t' || c == '\n' || c == '\r' || c == '\U{000B}' || c == '\U{000C}'
  }

  predicate IsDigit(c: char) { '0' <= c <= '9' }

  predicate IsAsciiLetter(c: char) { 'a' <= c <= 'z' || 'A' <= c <= 'Z' }

  /** `tolower` in the "C" locale: only A-Z change. */
  function ToLower(c: char): (r: char)
    ensures 'A' <= c <= 'Z' ==> 'a' <= r <= 'z'
    ensures !('A' <= c <= 'Z') ==> r == c
  {
    if 'A' <= c <= 'Z' then (c as int - 'A' as int + 'a' as int) as char else c
  }

  /** `std::transform(..., ::tolower)` over a whole string. */
  function Lower(s: string): string {
    seq(|s|, i requires 0 <= i < |s| => ToLower(s[i]))
  }

  /** No capital letter survives, and everything that is not one is kept. */
  lemma LowerNoCapitals(s: string)
    ensures |Lower(s)| == |s|
    ensures forall i :: 0 <= i < |s| ==> !('A' <= Lower(s)[i] <= 'Z')
    ensures forall i :: 0 <= i < |s| && !('A' <= s[i] <= 'Z') ==> Lower(s)[i] == s[i]
  {
  }

  /** Lower-casing twice is lower-casing once. */
  lemma LowerIdempotent(s: string)
    ensures Lower(Lower(s)) == Lower(s)
  {
    LowerNoCapitals(s);
  }

  // ---------------------------------------------------------------------------
  // Trimming against a set of characters
  // ---------------------------------------------------------------------------

  /** The characters `Config::trim` and the HTTP header trim remove. */
  const LineSpace: set<char> := {' ', '\t', '\r', '\n'}

  /** The characters the INI reader trims. */
  const Blank: set<char> := {' ', '\t'}

  /** `s.erase(0, s.find_first_not_of(ws))`. */
  function TrimLeft(s: string, ws: set<char>): (r: string)
    ensures |r| <= |s|
    ensures r == [] || r[0] !in ws
  {
    if s != [] && s[0] in ws then TrimLeft(s[1..], ws) else s
  }

  /** `s.erase(s.find_last_not_of(ws) + 1)`. */
  function TrimRight(s: string, ws: set<char>): (r: string)
    ensures |r| <= |s|
    ensures r == [] || r[|r| - 1] !in ws
  {
    if s != [] && s[|s| - 1] in ws then TrimRight(s[..|s| - 1], ws) else s
  }

  /** The left trim is a suffix, and what it dropped was all `ws`. */
  lemma {:induction false} TrimLeftSuffix(s: string, ws: set<char>)
    ensures var r := TrimLeft(s, ws);
      r == s[|s| - |r|..] && forall i :: 0 <= i < |s| - |r| ==> s[i] in ws
    decreases |s|
  {
    if s != [] && s[0] in ws {
      TrimLeftSuffix(s[1..], ws);
    }
  }

  /** The right trim is a prefix, and what it dropped was all `ws`. */
  lemma {:induction false} TrimRightPrefix(s: string, ws: set<char>)
    ensures var r := TrimRight(s, ws);
      r == s[..|r|] && forall i :: |r| <= i < |s| ==> s[i] in ws
    decreases |s|
  {
    if s != [] && s[|s| - 1] in ws {
      TrimRightPrefix(s[..|s| - 1], ws);
    }
  }

  /** Both ends trimmed: `find_first_not_of` / `find_last_not_of` / `substr`. */
  function Trim(s: string, ws: set<char>): string {
    TrimRight(TrimLeft(s, ws), ws)
  }

  /** A trimmed string keeps its inner characters and loses only characters of `ws` at the ends. */
  lemma TrimShape(s: string, ws: set<char>)
    ensures var t := Trim(s, ws);
      t == [] || (t[0] !in ws && t[|t| - 1] !in ws)
    ensures Trim(s, ws) == [] <==> forall i :: 0 <= i < |s| ==> s[i] in ws
  {
    var l := TrimLeft(s, ws);
    var t := TrimRight(l, ws);
    TrimLeftSuffix(s, ws);
    TrimRightPrefix(l, ws);
    if t != [] {
      assert t[0] == l[0];
    }
    if t == [] {
      forall i | 0 <= i < |s| ensures s[i] in ws {
        if i >= |s| - |l| {
          assert s[i] == l[i - (|s| - |l|)];
        }
      }
    }
  }

  /** A string already free of `ws` at both ends is its own trim. */
  lemma TrimAlready(s: string, ws: set<char>)
    requires s == [] || (s[0] !in ws && s[|s| - 1] !in ws)
    ensures TrimLeft(s, ws) == s && Trim(s, ws) == s
  {
  }

  /** A leading character of `ws` is dropped by the left trim. */
  lemma TrimLeftSkip(s: string, ws: set<char>)
    requires s != [] && s[0] in ws
    ensures TrimLeft(s, ws) == TrimLeft(s[1..], ws)
  {
  }

  /** `n` spaces. */
  function Spaces(n: nat): (r: string)
    ensures |r| == n && forall i :: 0 <= i < n ==> r[i] == ' '
  {
    if n == 0 then [] else [' '] + Spaces(n - 1)
  }

  /** Leading spaces go in the left trim of line space. */
  lemma {:induction false} TrimLeftSpaces(n: nat, s: string)
    ensures TrimLeft(Spaces(n) + s, LineSpace) == TrimLeft(s, LineSpace)
  {
    if n > 0 {
      var t := Spaces(n) + s;
      assert t[0] == ' ' && ' ' in LineSpace;
      assert t[1..] == Spaces(n - 1) + s;
      TrimLeftSkip(t, LineSpace);
      TrimLeftSpaces(n - 1, s);
    } else {
      assert Spaces(n) + s == s;
    }
  }

  /** Trimming only removes characters. */
  lemma TrimSubstring(s: string, ws: set<char>)
    ensures forall c :: c in Trim(s, ws) ==> c in s
  {
    var l := TrimLeft(s, ws);
    var t := TrimRight(l, ws);
    TrimLeftSuffix(s, ws);
    TrimRightPrefix(l, ws);
    forall c | c in t ensures c in s {
      var i :| 0 <= i < |t| && t[i] == c;
      assert l[i] == c;
      assert s[i + (|s| - |l|)] == c;
    }
  }

  /** Trimming is idempotent. */
  lemma TrimIdempotent(s: string, ws: set<char>)
    ensures Trim(Trim(s, ws), ws) == Trim(s, ws)
  {
    var t := Trim(s, ws);
    TrimShape(s, ws);
    assert TrimLeft(t, ws) == t;
    assert TrimRight(t, ws) == t;
  }

  /** Left-trimming twice trims nothing more. */
  lemma TrimLeftIdempotent(s: string, ws: set<char>)
    ensures TrimLeft(TrimLeft(s, ws), ws) == TrimLeft(s, ws)
  {
  }

  /** Right-trimming twice trims nothing more. */
  lemma TrimRightIdempotent(s: string, ws: set<char>)
    ensures TrimRight(TrimRight(s, ws), ws) == TrimRight(s, ws)
  {
  }

  /** Text after a left part that holds something besides `ws` is untouched by the left trim. */
  lemma {:induction false} TrimLeftConcat(a: string, b: string, ws: set<char>)
    requires TrimLeft(a, ws) != []
    ensures TrimLeft(a + b, ws) == TrimLeft(a, ws) + b
    decreases |a|
  {
    if a[0] in ws {
      assert (a + b)[1..] == a[1..] + b;
      TrimLeftConcat(a[1..], b, ws);
    }
  }

  /** A left part made only of `ws` vanishes under the left trim. */
  lemma {:induction false} TrimLeftBlankPrefix(a: string, b: string, ws: set<char>)
    requires TrimLeft(a, ws) == []
    ensures TrimLeft(a + b, ws) == TrimLeft(b, ws)
    decreases |a|
  {
    if a == [] {
      assert a + b == b;
    } else {
      assert (a + b)[1..] == a[1..] + b;
      TrimLeftBlankPrefix(a[1..], b, ws);
    }
  }

  /** Text before a right part that holds something besides `ws` is untouched by the right trim. */
  lemma {:induction false} TrimRightConcat(a: string, b: string, ws: set<char>)
    requires TrimRight(b, ws) != []
    ensures TrimRight(a + b, ws) == a + TrimRight(b, ws)
    decreases |b|
  {
    var c := a + b;
    if b[|b| - 1] in ws {
      assert c[..|c| - 1] == a + b[..|b| - 1];
      TrimRightConcat(a, b[..|b| - 1], ws);
    }
  }

  /** A right part made only of `ws` vanishes under the right trim. */
  lemma {:induction false} TrimRightBlankSuffix(a: string, b: string, ws: set<char>)
    requires TrimRight(b, ws) == []
    ensures TrimRight(a + b, ws) == TrimRight(a, ws)
    decreases |b|
  {
    var c := a + b;
    if b == [] {
      assert c == a;
    } else {
      assert c[..|c| - 1] == a + b[..|b| - 1];
      TrimRightBlankSuffix(a, b[..|b| - 1], ws);
    }
  }

  /** A string made only of `ws` trims to nothing from either end. */
  lemma {:induction false} TrimAllBlank(s: string, ws: set<char>)
    requires forall i :: 0 <= i < |s| ==> s[i] in ws
    ensures TrimLeft(s, ws) == [] && TrimRight(s, ws) == []
    decreases |s|
  {
    if s != [] {
      TrimAllBlank(s[1..], ws);
      TrimAllBlank(s[..|s| - 1], ws);
    }
  }

  /** Trimming a right-trimmed string is trimming the original. */
  lemma TrimOfTrimRight(s: string, ws: set<char>)
    ensures Trim(TrimRight(s, ws), ws) == Trim(s, ws)
  {
    var l := TrimLeft(s, ws);
    TrimLeftSuffix(s, ws);
    var p := s[..|s| - |l|];
    assert s == p + l;
    if l == [] {
      TrimAllBlank(s, ws);
    } else {
      TrimAllBlank(p, ws);
      var m := TrimRight(l, ws);
      TrimRightPrefix(l, ws);
      assert m != [] && m[0] == l[0];
      TrimRightConcat(p, l, ws);
      assert TrimRight(s, ws) == p + m;
      TrimLeftBlankPrefix(p, m, ws);
      assert TrimLeft(m, ws) == m;
      TrimRightIdempotent(l, ws);
    }
  }

  /** Trimming around a character outside `ws`: the left part loses its head, the right part its tail. */
  lemma TrimAround(a: string, c: char, b: string, ws: set<char>)
    requires c !in ws
    ensures Trim(a + [c] + b, ws) == TrimLeft(a, ws) + [c] + TrimRight(b, ws)
  {
    var l := TrimLeft(a, ws);
    assert a + [c] + b == a + ([c] + b);
    assert TrimLeft([c] + b, ws) == [c] + b;
    if l != [] {
      TrimLeftConcat(a, [c] + b, ws);
    } else {
      TrimLeftBlankPrefix(a, [c] + b, ws);
      assert l + [c] + b == [c] + b;
    }
    assert TrimLeft(a + [c] + b, ws) == (l + [c]) + b;
    if TrimRight(b, ws) != [] {
      TrimRightConcat(l + [c], b, ws);
    } else {
      TrimRightBlankSuffix(l + [c], b, ws);
      assert TrimRight(l + [c], ws) == l + [c];
      assert l + [c] + [] == l + [c];
    }
  }

  /** Trimming a left-trimmed string is trimming the original. */
  lemma TrimOfTrimLeft(s: string, ws: set<char>)
    ensures Trim(TrimLeft(s, ws), ws) == Trim(s, ws)
  {
    TrimLeftIdempotent(s, ws);
  }

  // ---------------------------------------------------------------------------
  // Searching
  // ---------------------------------------------------------------------------

  /** `s.find(c)`: the first position of `c`, or None for `npos`. */
  function IndexOf(s: string, c: char): (r: Option<nat>)
    ensures r.Some? ==> r.value < |s| && s[r.value] == c && c !in s[..r.value]
    ensures r.None? <==> c !in s
  {
    if s == [] then None
    else if s[0] == c then Some(0)
    else match IndexOf(s[1..], c)
      case None => None
      case Some(i) => assert s[..i + 1] == [s[0]] + s[1..][..i]; Some(i + 1)
  }

  /** `s.find_last_of(cs)`: the last position holding a character of `cs`. */
  function LastIndexOf(s: string, cs: set<char>): (r: Option<nat>)
    ensures r.Some? ==> r.value < |s| && s[r.value] in cs
    ensures r.Some? ==> forall j :: r.value < j < |s| ==> s[j] !in cs
    ensures r.None? <==> forall j :: 0 <= j < |s| ==> s[j] !in cs
  {
    if s == [] then None
    else if s[|s| - 1] in cs then Some(|s| - 1)
    else LastIndexOf(s[..|s| - 1], cs)
  }

  /** `pat` starts at position `i` of `s`. */
  predicate OccursAt(s: string, pat: string, i: nat) {
    i + |pat| <= |s| && s[i..i + |pat|] == pat
  }

  /** `s.find(pat, from)`: the first position at or after `from` where `pat` occurs. */
  function FindFrom(s: string, pat: string, from: nat): (r: Option<nat>)
    ensures r.Some? ==> from <= r.value && OccursAt(s, pat, r.value)
    ensures r.Some? ==> forall j :: from <= j < r.value ==> !OccursAt(s, pat, j)
    ensures r.None? ==> forall j :: from <= j ==> !OccursAt(s, pat, j)
    decreases |s| - from
  {
    if from + |pat| > |s| then None
    else if s[from..from + |pat|] == pat then Some(from)
    else FindFrom(s, pat, from + 1)
  }

  /** `find` of a one-character pattern: the first position at or after `from` holding it. */
  lemma FindCharAt(s: string, c: char, from: nat, i: nat)
    requires from <= i < |s| && s[i] == c && c !in s[from..i]
    ensures FindFrom(s, [c], from) == Some(i)
  {
    forall j | from <= j < i ensures !OccursAt(s, [c], j) {
      assert s[from..i][j - from] == s[j];
      assert s[j..j + 1] == [s[j]];
    }
    assert s[i..i + 1] == [c];
    FindFromFirst(s, [c], from, i);
  }

  /** No occurrence of a one-character pattern in a range means the character is absent there. */
  lemma NoCharBetween(s: string, c: char, from: nat, e: nat)
    requires from <= e <= |s|
    requires forall j :: from <= j < e ==> !OccursAt(s, [c], j)
    ensures c !in s[from..e]
  {
    forall j | from <= j < e ensures s[j] != c {
      assert !OccursAt(s, [c], j);
      assert s[j..j + 1] == [s[j]];
    }
  }

  /** `find` returns the first occurrence at or after `from`. */
  lemma FindFromFirst(s: string, pat: string, from: nat, i: nat)
    requires from <= i && OccursAt(s, pat, i)
    requires forall j :: from <= j < i ==> !OccursAt(s, pat, j)
    ensures FindFrom(s, pat, from) == Some(i)
  {
  }

  // ---------------------------------------------------------------------------
  // Splitting and joining
  // ---------------------------------------------------------------------------

  /**
   * The pieces `while (std::getline(stream, piece, d))` yields: the text between delimiters,
   * with no final empty piece when the input ends with `d` (or is empty).
   */
  function Split(s: string, d: char): (r: seq<string>)
    ensures forall k :: 0 <= k < |r| ==> d !in r[k]
    ensures s == [] <==> r == []
    decreases |s|
  {
    if s == [] then []
    else match IndexOf(s, d)
      case None => [s]
      case Some(i) => [s[..i]] + Split(s[i + 1..], d)
  }

  /** The lines `std::getline(stream, line)` yields. */
  function Lines(s: string): seq<string> {
    Split(s, '\n')
  }

  /** The pieces joined with `sep` in between, as a `for (i) { if (i > 0) out << sep; out << xs[i]; }` loop writes them. */
  function Join(xs: seq<string>, sep: string): string
  {
    if xs == [] then [] else if |xs| == 1 then xs[0] else xs[0] + sep + Join(xs[1..], sep)
  }

  /** Join adds one separator between neighbours: the shape of the loop that writes it. */
  lemma {:induction false} JoinSnoc(xs: seq<string>, x: string, sep: string)
    ensures Join(xs + [x], sep) == if xs == [] then x else Join(xs, sep) + sep + x
    decreases |xs|
  {
    if |xs| > 1 {
      assert (xs + [x])[1..] == xs[1..] + [x];
      JoinSnoc(xs[1..], x, sep);
    } else if |xs| == 1 {
      assert xs + [x] == [xs[0], x];
    }
  }

  /** Join of a non-empty list: the head, then the separator and the rest when there is a rest. */
  lemma JoinCons(x: string, xs: seq<string>, sep: string)
    ensures Join([x] + xs, sep) == if xs == [] then x else x + sep + Join(xs, sep)
  {
    if xs != [] {
      assert ([x] + xs)[1..] == xs;
    }
  }

  /** The input without one trailing delimiter, which getline swallows. */
  function DropFinal(s: string, d: char): string {
    if s != [] && s[|s| - 1] == d then s[..|s| - 1] else s
  }

  /** Joining a getline split with its delimiter gives the input back, less one trailing delimiter. */
  lemma {:induction false} SplitJoin(s: string, d: char)
    ensures Join(Split(s, d), [d]) == DropFinal(s, d)
    decreases |s|
  {
    if s != [] && IndexOf(s, d).Some? {
      var i := IndexOf(s, d).value;
      var head, rest := s[..i], s[i + 1..];
      var pieces := Split(rest, d);
      assert Split(s, d) == [head] + pieces;
      assert s == head + [d] + rest;
      SplitJoin(rest, d);
      JoinCons(head, pieces, [d]);
      if rest != [] {
        DropFinalAppend(head + [d], rest, d);
      } else {
        assert s[..|s| - 1] == head;
      }
    } else if s != [] {
      assert Split(s, d) == [s];
      assert d !in s;
    }
  }

  /** The trailing delimiter of `a + b` is that of `b` when `b` is not empty. */
  lemma DropFinalAppend(a: string, b: string, d: char)
    requires b != []
    ensures DropFinal(a + b, d) == a + DropFinal(b, d)
  {
    var s := a + b;
    assert s[|s| - 1] == b[|b| - 1];
    if b[|b| - 1] == d {
      assert s[..|s| - 1] == a + b[..|b| - 1];
    }
  }

  /** `find` of a character that occurs first right after `a`. */
  lemma IndexOfAfter(a: string, c: char, b: string)
    requires c !in a
    ensures IndexOf(a + [c] + b, c) == Some(|a|)
  {
    var s := a + [c] + b;
    assert s[|a|] == c;
    assert s[..|a|] == a;
  }

  /** Splitting pieces joined with a delimiter they do not contain gives the pieces back. */
  lemma {:induction false} JoinSplit(xs: seq<string>, d: char)
    requires forall k :: 0 <= k < |xs| ==> d !in xs[k]
    requires xs != [] ==> xs[|xs| - 1] != []
    ensures Split(Join(xs, [d]), d) == xs
    decreases |xs|
  {
    if |xs| == 1 {
      assert Split(xs[0], d) == [xs[0]];
    } else if |xs| > 1 {
      var head, tail := xs[0], xs[1..];
      var rest := Join(tail, [d]);
      var s := head + [d] + rest;
      assert Join(xs, [d]) == s;
      IndexOfAfter(head, d, rest);
      assert s[..|head|] == head && s[|head| + 1..] == rest;
      assert Split(s, d) == [head] + Split(rest, d);
      JoinSplit(tail, d);
      assert xs == [head] + tail;
    }
  }

  /** The pieces of a string that are not empty, in order. */
  function NonEmpty(xs: seq<string>): seq<string> {
    if xs == [] then []
    else if xs[0] == [] then NonEmpty(xs[1..])
    else [xs[0]] + NonEmpty(xs[1..])
  }

  /** `NonEmpty` keeps exactly the non-empty pieces. */
  lemma {:induction false} NonEmptyElements(xs: seq<string>)
    ensures forall k :: 0 <= k < |NonEmpty(xs)| ==> NonEmpty(xs)[k] != [] && NonEmpty(xs)[k] in xs
    ensures forall x :: x in xs && x != [] ==> x in NonEmpty(xs)
  {
    if xs != [] {
      NonEmptyElements(xs[1..]);
      assert xs == [xs[0]] + xs[1..];
    }
  }

  /** The flattening of a sequence of strings. */
  function Concat(xs: seq<string>): string {
    if xs == [] then [] else xs[0] + Concat(xs[1..])
  }

  /** `s` with every occurrence of `c` removed. */
  function Without(s: string, c: char): string {
    if s == [] then [] else (if s[0] == c then [] else [s[0]]) + Without(s[1..], c)
  }

  /** `s` without its leading `isspace` characters, as `std::ws` and strtol skip them. */
  function SkipSpace(s: string): (r: string)
    ensures |r| <= |s| && r == s[|s| - |r|..]
    ensures forall i :: 0 <= i < |s| - |r| ==> IsSpace(s[i])
    ensures r == [] || !IsSpace(r[0])
  {
    if s != [] && IsSpace(s[0]) then SkipSpace(s[1..]) else s
  }

  /** A word: a non-empty run of non-space characters. */
  predicate IsWord(w: string) {
    w != [] && forall j :: 0 <= j < |w| ==> !IsSpace(w[j])
  }

  /** The whitespace-separated words `stream >> word` extracts, in order. */
  function Words(s: string): seq<string>
    decreases |s|
  {
    var t := SkipSpace(s);
    if t == [] then []
    else
      var n := WordLength(t);
      assert 0 < n;
      [t[..n]] + Words(t[n..])
  }

  /** Every extracted word is non-empty and holds no white space. */
  lemma {:induction false} WordsAreWords(s: string)
    ensures forall k :: 0 <= k < |Words(s)| ==> IsWord(Words(s)[k])
    decreases |s|
  {
    var t := SkipSpace(s);
    if t != [] {
      var n := WordLength(t);
      var w, rest := t[..n], Words(t[n..]);
      WordsAreWords(t[n..]);
      assert IsWord(w);
      assert Words(s) == [w] + rest;
      assert forall k :: 0 < k <= |rest| ==> ([w] + rest)[k] == rest[k - 1];
    }
  }

  /** The length of the leading run of non-space characters. */
  function WordLength(t: string): (n: nat)
    ensures n <= |t|
    ensures forall j :: 0 <= j < n ==> !IsSpace(t[j])
    ensures n < |t| ==> IsSpace(t[n])
    ensures t != [] && !IsSpace(t[0]) ==> n > 0
  {
    if t == [] || IsSpace(t[0]) then 0 else 1 + WordLength(t[1..])
  }

  // ---------------------------------------------------------------------------
  // Decimal and hexadecimal numerals
  // ---------------------------------------------------------------------------

  function DigitChar(d: nat): (c: char)
    requires d < 10
    ensures IsDigit(c)
  {
    ('0' as int + d) as char
  }

  function DigitValue(c: char): nat
    requires IsDigit(c)
  {
    c as int - '0' as int
  }

  /** `std::to_string` of a non-negative integer: no leading zeros. */
  function Decimal(n: nat): (r: string)
    ensures r != [] && forall i :: 0 <= i < |r| ==> IsDigit(r[i])
    ensures r[0] == '0' ==> n == 0
  {
    if n < 10 then [DigitChar(n)] else Decimal(n / 10) + [DigitChar(n % 10)]
  }

  /** `std::to_string` of a signed integer. */
  function IntString(i: int): string {
    if i < 0 then "-" + Decimal(-i) else Decimal(i)
  }

  predicate AllDigits(s: string) {
    forall i :: 0 <= i < |s| ==> IsDigit(s[i])
  }

  /** The value of a string of decimal digits (most significant first). */
  function DigitsValue(s: string): nat
    requires AllDigits(s)
  {
    if s == [] then 0 else DigitsValue(s[..|s| - 1]) * 10 + DigitValue(s[|s| - 1])
  }

  /** Reading a `to_string` numeral back gives the number. */
  lemma {:induction false} DecimalRoundTrip(n: nat)
    ensures DigitsValue(Decimal(n)) == n
  {
    if n >= 10 {
      DecimalRoundTrip(n / 10);
      var r := Decimal(n);
      assert r[..|r| - 1] == Decimal(n / 10);
    }
  }

  /** Different numbers print differently. */
  lemma DecimalInjective(a: nat, b: nat)
    ensures Decimal(a) == Decimal(b) ==> a == b
  {
    DecimalRoundTrip(a);
    DecimalRoundTrip(b);
  }

  function HexChar(d: nat): (c: char)
    requires d < 16
  {
    if d < 10 then ('0' as int + d) as char else ('a' as int + d - 10) as char
  }

  predicate IsHexDigit(c: char) { '0' <= c <= '9' || 'a' <= c <= 'f' }

  function HexDigitValue(c: char): (v: nat)
    requires IsHexDigit(c)
    ensures v < 16
  {
    if c <= '9' then c as int - '0' as int else c as int - 'a' as int + 10
  }

  /** `out << std::hex << n`: lower-case hexadecimal without leading zeros. */
  function Hex(n: nat): (r: string)
    ensures r != [] && forall i :: 0 <= i < |r| ==> IsHexDigit(r[i])
  {
    if n < 16 then [HexChar(n)] else Hex(n / 16) + [HexChar(n % 16)]
  }

  /** The value of a string of hexadecimal digits (most significant first). */
  function HexValue(s: string): nat
    requires forall i :: 0 <= i < |s| ==> IsHexDigit(s[i])
  {
    if s == [] then 0 else HexValue(s[..|s| - 1]) * 16 + HexDigitValue(s[|s| - 1])
  }

  lemma {:induction false} HexRoundTrip(n: nat)
    ensures HexValue(Hex(n)) == n
  {
    if n >= 16 {
      HexRoundTrip(n / 16);
      var r := Hex(n);
      assert r[..|r| - 1] == Hex(n / 16);
    }
  }

  /** `k` copies of '0', the fill character `std::setfill('0')` or a padding loop adds. */
  function Zeros(k: nat): (r: string)
    ensures |r| == k && forall i :: 0 <= i < k ==> r[i] == '0'
  {
    if k == 0 then [] else Zeros(k - 1) + ['0']
  }

  /** Leading zeros do not change a hexadecimal value. */
  lemma {:induction false} HexLeadingZeros(k: nat, s: string)
    requires forall i :: 0 <= i < |s| ==> IsHexDigit(s[i])
    ensures forall i :: 0 <= i < k + |s| ==> IsHexDigit((Zeros(k) + s)[i])
    ensures HexValue(Zeros(k) + s) == HexValue(s)
    decreases |s|
  {
    var z := Zeros(k);
    if s == [] {
      assert z + s == z;
      ZerosValue(k);
    } else {
      var p := s[..|s| - 1];
      HexLeadingZeros(k, p);
      var t := z + s;
      assert t[..|t| - 1] == z + p && t[|t| - 1] == s[|s| - 1];
    }
  }

  /** A run of zeros is hexadecimal and worth nothing. */
  lemma {:induction false} ZerosValue(k: nat)
    ensures forall i :: 0 <= i < k ==> IsHexDigit(Zeros(k)[i])
    ensures HexValue(Zeros(k)) == 0
  {
    if k > 0 {
      ZerosValue(k - 1);
      assert Zeros(k)[..k - 1] == Zeros(k - 1);
    }
  }

  // ---------------------------------------------------------------------------
  // std::stoi / std::stoull (base 10, via strtol / strtoull)
  // ---------------------------------------------------------------------------

  /** Why a numeric conversion throws: `std::invalid_argument` or `std::out_of_range`. */
  datatype NumberError = InvalidArgument | OutOfRange

  /** The length of the leading run of decimal digits. */
  function DigitRun(s: string): (n: nat)
    ensures n <= |s| && AllDigits(s[..n])
    ensures n < |s| ==> !IsDigit(s[n])
  {
    if s == [] || !IsDigit(s[0]) then 0 else 1 + DigitRun(s[1..])
  }

  /**
   * What strtol/strtoull read: leading white space skipped, an optional sign, then the longest
   * run of digits; None when there is no digit (the conversion "performs no conversion").
   */
  function LeadingNumeral(s: string): (r: Option<(bool, string)>)
    ensures r.Some? ==> r.value.1 != [] && AllDigits(r.value.1)
  {
    var t := SkipSpace(s);
    var negative := t != [] && t[0] == '-';
    var u := if t != [] && (t[0] == '-' || t[0] == '+') then t[1..] else t;
    var n := DigitRun(u);
    if n == 0 then None else Some((negative, u[..n]))
  }

  const IntMin: int := -0x8000_0000
  const IntMax: int := 0x7FFF_FFFF
  const ULongModulus: int := 0x1_0000_0000_0000_0000

  /** `std::stoi`: a 32-bit `int`, or the exception it throws. */
  function StoI(s: string): (r: Result<int, NumberError>)
    ensures r.Ok? ==> IntMin <= r.value <= IntMax
  {
    match LeadingNumeral(s)
    case None => Err(InvalidArgument)
    case Some((negative, ds)) =>
      var m: int := DigitsValue(ds);
      var v := if negative then -m else m;
      if IntMin <= v <= IntMax then Ok(v) else Err(OutOfRange)
  }

  /** `std::stoull`: a 64-bit unsigned value; a leading '-' negates modulo 2^64, as strtoull does. */
  function StoULL(s: string): (r: Result<nat, NumberError>)
    ensures r.Ok? ==> r.value < ULongModulus
  {
    match LeadingNumeral(s)
    case None => Err(InvalidArgument)
    case Some((negative, ds)) =>
      var v := DigitsValue(ds);
      if v >= ULongModulus then Err(OutOfRange)
      else if negative && v > 0 then Ok(ULongModulus - v)
      else Ok(v)
  }

  /** The numeral of an in-range int reads back as that int. */
  lemma StoIRoundTrip(i: int)
    requires IntMin <= i <= IntMax
    ensures StoI(IntString(i)) == Ok(i)
  {
    var s := IntString(i);
    var n: nat := if i < 0 then -i else i;
    var d := Decimal(n);
    assert LeadingNumeral(s) == Some((i < 0, d)) by {
      LeadingNumeralOfIntString(i);
    }
    DecimalRoundTrip(n);
  }

  lemma LeadingNumeralOfIntString(i: int)
    ensures LeadingNumeral(IntString(i)) == Some((i < 0, Decimal(if i < 0 then -i else i)))
  {
    if i < 0 {
      LeadingNumeralOfDigits("-", Decimal(-i));
    } else {
      LeadingNumeralOfDigits([], Decimal(i));
      assert [] + Decimal(i) == Decimal(i);
    }
  }

  /** A run of digits, alone or after a '-', reads as that run with that sign. */
  lemma LeadingNumeralOfDigits(sign: string, d: string)
    requires sign == [] || sign == "-"
    requires d != [] && AllDigits(d)
    ensures LeadingNumeral(sign + d) == Some((sign != [], d))
  {
    var s := sign + d;
    assert s[0] == (if sign == [] then d[0] else '-');
    assert SkipSpace(s) == s;
    var u := if sign == [] then s else s[1..];
    assert u == d;
    DigitRunAll(d);
    assert d[..|d|] == d;
  }

  lemma DigitRunAll(s: string)
    requires AllDigits(s)
    ensures DigitRun(s) == |s|
  {
    if s != [] {
      DigitRunAll(s[1..]);
    }
  }
}

/** String helpers shared by the monitors and the panel: whitespace as
    JavaScript's `trim` and `\s` understand it, ASCII case mapping, substring
    search, splitting and joining, and decimal rendering of numbers. */
module Text {

  type String = seq<char>

  /** JavaScript's WhiteSpace and LineTerminator code points: the set that
      `String.prototype.trim` removes and that the regular expression `\s` matches. */
  predicate IsSpace(c: char) {
    || c == ' ' || c == '\t' || c == '\n' || c == '\r' || c == '\U{B}' || c == '\U{C}'
    || c == '\U{A0}' || c == '\U{1680}' || ('\U{2000}' <= c <= '\U{200A}')
    || c == '\U{2028}' || c == '\U{2029}' || c == '\U{202F}' || c == '\U{205F}'
    || c == '\U{3000}' || c == '\U{FEFF}'
  }

  // ---------------------------------------------------------------------------
  // Case mapping (ASCII letters only)

  function LowerChar(c: char): char {
    if 'A' <= c <= 'Z' then (c as int - 'A' as int + 'a' as int) as char else c
  }

  function UpperChar(c: char): char {
    if 'a' <= c <= 'z' then (c as int - 'a' as int + 'A' as int) as char else c
  }

  predicate IsLowerCase(s: String) {
    forall i :: 0 <= i < |s| ==> !('A' <= s[i] <= 'Z')
  }

  /** `toLowerCase`: same length, and no upper-case letter is left. */
  function Lower(s: String): (r: String)
    ensures |r| == |s| && IsLowerCase(r)
  {
    seq(|s|, i requires 0 <= i < |s| => LowerChar(s[i]))
  }

  /** `toUpperCase`: same length, and no lower-case letter is left. */
  function Upper(s: String): (r: String)
    ensures |r| == |s| && forall i :: 0 <= i < |r| ==> !('a' <= r[i] <= 'z')
  {
    seq(|s|, i requires 0 <= i < |s| => UpperChar(s[i]))
  }

  // ---------------------------------------------------------------------------
  // Trimming and whitespace runs

  /** Drops the leading whitespace: what is left is a suffix of `s` that does
      not start with whitespace, and everything dropped was whitespace. */
  function TrimStart(s: String): (r: String)
    ensures |r| <= |s| && r == s[|s| - |r|..]
    ensures r == [] || !IsSpace(r[0])
    ensures forall i :: 0 <= i < |s| - |r| ==> IsSpace(s[i])
    decreases |s|
  {
    if s != [] && IsSpace(s[0]) then TrimStart(s[1..]) else s
  }

  /** Drops the trailing whitespace: what is left is a prefix of `s` that does
      not end with whitespace, and everything dropped was whitespace. */
  function TrimEnd(s: String): (r: String)
    ensures |r| <= |s| && r == s[..|r|]
    ensures r == [] || !IsSpace(r[|r| - 1])
    ensures forall i :: |r| <= i < |s| ==> IsSpace(s[i])
    decreases |s|
  {
    if s != [] && IsSpace(s[|s| - 1]) then TrimEnd(s[..|s| - 1]) else s
  }

  predicate IsTrimmed(s: String) {
    s == [] || (!IsSpace(s[0]) && !IsSpace(s[|s| - 1]))
  }

  /** `trim`: the result neither starts nor ends with whitespace. */
  function Trim(s: String): (r: String)
    ensures IsTrimmed(r) && |r| <= |s|
  {
    var t := TrimStart(s);
    var r := TrimEnd(t);
    assert r != [] ==> r[0] == t[0];
    r
  }

  /** A string that is already trimmed is left alone by `trim`. */
  lemma TrimTrimmed(s: String)
    requires IsTrimmed(s)
    ensures Trim(s) == s
  {
  }

  /** Every whitespace character is a plain space, and no two whitespace
      characters are adjacent. */
  predicate Collapsed(r: String) {
    && (forall i :: 0 <= i < |r| && IsSpace(r[i]) ==> r[i] == ' ')
    && (forall i :: 0 <= i < |r| - 1 ==> !(IsSpace(r[i]) && IsSpace(r[i + 1])))
  }

  lemma ConsCollapsed(c: char, r: String)
    requires Collapsed(r)
    requires IsSpace(c) ==> c == ' ' && (r == [] || !IsSpace(r[0]))
    ensures Collapsed([c] + r)
  {
    var cr := [c] + r;
    assert forall i :: 1 <= i < |cr| ==> cr[i] == r[i - 1];
  }

  /** `replace(/\s+/g, ' ')`: every maximal run of whitespace becomes one space. */
  function CollapseSpaces(s: String): (r: String)
    ensures Collapsed(r)
    ensures |r| <= |s| && (r == [] <==> s == [])
    ensures r != [] ==> (IsSpace(r[0]) <==> IsSpace(s[0]))
    ensures r != [] ==> (IsSpace(r[|r| - 1]) <==> IsSpace(s[|s| - 1]))
    decreases |s|
  {
    if s == [] then []
    else if IsSpace(s[0]) then
      var t := TrimStart(s);
      assert t != [] ==> t[|t| - 1] == s[|s| - 1];
      var rest := CollapseSpaces(t);
      ConsCollapsed(' ', rest);
      [' '] + rest
    else
      var rest := CollapseSpaces(s[1..]);
      ConsCollapsed(s[0], rest);
      [s[0]] + rest
  }

  /** Collapsing the runs of a trimmed string leaves it trimmed. */
  lemma CollapseKeepsTrimmed(s: String)
    requires IsTrimmed(s)
    ensures IsTrimmed(CollapseSpaces(s)) && |CollapseSpaces(s)| <= |s|
  {
    var r := CollapseSpaces(s);
    if r != [] {
      assert !IsSpace(s[0]) && !IsSpace(s[|s| - 1]);
      assert !IsSpace(r[0]);
      assert !IsSpace(r[|r| - 1]);
    }
  }

  /** The number of non-whitespace characters at the front of `s`. */
  function TokenLength(s: String): (n: nat)
    ensures n <= |s|
    ensures forall i :: 0 <= i < n ==> !IsSpace(s[i])
    ensures n == |s| || IsSpace(s[n])
    decreases |s|
  {
    if s == [] || IsSpace(s[0]) then 0 else 1 + TokenLength(s[1..])
  }

  predicate IsWord(w: String) {
    w != [] && forall j :: 0 <= j < |w| ==> !IsSpace(w[j])
  }

  /** `split(/\s+/).filter(Boolean)`: the maximal runs of non-whitespace
      characters, in order. */
  function Words(s: String): (r: seq<String>)
    ensures forall i :: 0 <= i < |r| ==> IsWord(r[i])
    decreases |s|
  {
    var t := TrimStart(s);
    if t == [] then []
    else
      var n := TokenLength(t);
      assert n > 0 && IsWord(t[..n]);
      var rest := Words(t[n..]);
      AllWordsCons(t[..n], rest);
      [t[..n]] + rest
  }

  lemma AllWordsCons(w: String, rest: seq<String>)
    requires IsWord(w) && forall i :: 0 <= i < |rest| ==> IsWord(rest[i])
    ensures forall i :: 0 <= i < |rest| + 1 ==> IsWord(([w] + rest)[i])
  {
  }

  /** A word followed by whitespace (or nothing) is one token. */
  lemma {:induction false} TokenLengthWord(w: String, s: String)
    requires IsWord(w) && (s == [] || IsSpace(s[0]))
    ensures TokenLength(w + s) == |w|
    decreases |w|
  {
    if |w| == 1 {
      assert (w + s)[1..] == s;
    } else {
      assert (w + s)[1..] == w[1..] + s;
      TokenLengthWord(w[1..], s);
    }
  }

  /** A word in front of whitespace (or of nothing) is the first word. */
  lemma WordsCons(w: String, s: String)
    requires IsWord(w) && (s == [] || IsSpace(s[0]))
    ensures Words(w + s) == [w] + Words(s)
  {
    var t := w + s;
    assert t[0] == w[0];
    assert TrimStart(t) == t;
    TokenLengthWord(w, s);
    assert t[..|w|] == w && t[|w|..] == s;
  }

  /** A leading whitespace character does not change the words. */
  lemma {:induction false} WordsSpaceHead(c: char, x: String)
    requires IsSpace(c)
    ensures Words([c] + x) == Words(x)
  {
    assert ([c] + x)[1..] == x;
    assert TrimStart([c] + x) == TrimStart(x);
  }

  /** Splitting words joined by single spaces gives the words back. */
  lemma {:induction false} WordsJoin(ws: seq<String>)
    requires forall i :: 0 <= i < |ws| ==> IsWord(ws[i])
    ensures Words(Join(ws, " ")) == ws
    decreases |ws|
  {
    if |ws| == 1 {
      WordsJoinOne(ws[0]);
      assert ws == [ws[0]];
    } else if |ws| > 1 {
      WordsJoin(ws[1..]);
      WordsJoinStep(ws);
    }
  }

  lemma WordsJoinOne(w: String)
    requires IsWord(w)
    ensures Words(Join([w], " ")) == [w]
  {
    WordsCons(w, []);
    assert w + [] == w;
  }

  lemma WordsJoinStep(ws: seq<String>)
    requires |ws| >= 2 && IsWord(ws[0]) && Words(Join(ws[1..], " ")) == ws[1..]
    ensures Words(Join(ws, " ")) == ws
  {
    WordsSpaceCons(ws[0], Join(ws[1..], " "));
    assert [ws[0]] + ws[1..] == ws;
  }

  /** A word, a space, then anything: the word, then the words of the rest. */
  lemma WordsSpaceCons(w: String, rest: String)
    requires IsWord(w)
    ensures Words(w + " " + rest) == [w] + Words(rest)
  {
    assert w + " " + rest == w + (" " + rest);
    WordsCons(w, " " + rest);
    WordsSpaceHead(' ', rest);
  }

  /** A string is broken before its first character when it is empty or
      starts with whitespace: a word in front of it ends there. */
  predicate BreaksAt(s: String) {
    s == [] || IsSpace(s[0])
  }

  /** A non-space character in front of a word extends that word. */
  lemma {:induction false} WordsGlue(c: char, y: String)
    requires !IsSpace(c) && !BreaksAt(y)
    ensures Words(y) != [] && Words([c] + y) == [[c] + Words(y)[0]] + Words(y)[1..]
  {
    var cy := [c] + y;
    assert cy[1..] == y;
    assert TrimStart(y) == y;
    assert TrimStart(cy) == cy;
    var n := TokenLength(y);
    assert TokenLength(cy) == 1 + n;
    assert cy[..1 + n] == [c] + y[..n];
    assert cy[1 + n..] == y[n..];
  }

  /** A non-space character in front of a break is a word of its own. */
  lemma {:induction false} WordsBreak(c: char, y: String)
    requires !IsSpace(c) && BreaksAt(y)
    ensures Words([c] + y) == [[c]] + Words(y)
  {
    assert IsWord([c]);
    WordsCons([c], y);
  }

  /** The words of `c + y` depend only on `c`, the words of `y` and whether
      `y` is broken at its start. */
  lemma {:induction false} WordsHeadChar(c: char, y1: String, y2: String)
    requires !IsSpace(c) && Words(y1) == Words(y2) && BreaksAt(y1) == BreaksAt(y2)
    ensures Words([c] + y1) == Words([c] + y2)
  {
    if BreaksAt(y1) {
      WordsBreak(c, y1);
      WordsBreak(c, y2);
    } else {
      WordsGlue(c, y1);
      WordsGlue(c, y2);
    }
  }

  /** Leading whitespace does not change the words. */
  lemma {:induction false} WordsTrimStart(s: String)
    ensures Words(TrimStart(s)) == Words(s)
    decreases |s|
  {
    if s != [] && IsSpace(s[0]) {
      assert s == [s[0]] + s[1..];
      WordsSpaceHead(s[0], s[1..]);
      WordsTrimStart(s[1..]);
    }
  }

  /** Trailing whitespace does not change the words. */
  lemma {:induction false} WordsTrailingSpace(x: String, sp: String)
    requires forall i :: 0 <= i < |sp| ==> IsSpace(sp[i])
    ensures Words(x + sp) == Words(x)
    decreases |x|
  {
    if x == [] {
      assert x + sp == sp;
      assert TrimStart(sp) == [];
    } else {
      var y := x[1..];
      assert x == [x[0]] + y;
      assert x + sp == [x[0]] + (y + sp);
      WordsTrailingSpace(y, sp);
      if IsSpace(x[0]) {
        WordsSpaceHead(x[0], y + sp);
        WordsSpaceHead(x[0], y);
      } else {
        assert y != [] ==> (y + sp)[0] == y[0];
        WordsHeadChar(x[0], y + sp, y);
      }
    }
  }

  /** Trimming does not change the words. */
  lemma {:induction false} WordsTrim(s: String)
    ensures Words(Trim(s)) == Words(s)
  {
    WordsTrimStart(s);
    WordsTrimEnd(TrimStart(s));
  }

  lemma {:induction false} WordsTrimEnd(t: String)
    ensures Words(TrimEnd(t)) == Words(t)
  {
    var r := TrimEnd(t);
    assert t == r + t[|r|..];
    WordsTrailingSpace(r, t[|r|..]);
  }

  /** Collapsing the whitespace runs does not change the words. */
  lemma {:induction false} WordsCollapse(s: String)
    ensures Words(CollapseSpaces(s)) == Words(s)
    decreases |s|
  {
    if s != [] {
      if IsSpace(s[0]) {
        WordsCollapse(TrimStart(s));
        WordsCollapseRun(s);
      } else {
        WordsCollapse(s[1..]);
        WordsCollapseChar(s);
      }
    }
  }

  /** A whitespace run at the front becomes one space. */
  lemma {:induction false} WordsCollapseRun(s: String)
    requires s != [] && IsSpace(s[0])
    requires Words(CollapseSpaces(TrimStart(s))) == Words(TrimStart(s))
    ensures Words(CollapseSpaces(s)) == Words(s)
  {
    WordsSpaceHead(' ', CollapseSpaces(TrimStart(s)));
    WordsTrimStart(s);
  }

  /** A non-space character at the front is kept. */
  lemma {:induction false} WordsCollapseChar(s: String)
    requires s != [] && !IsSpace(s[0])
    requires Words(CollapseSpaces(s[1..])) == Words(s[1..])
    ensures Words(CollapseSpaces(s)) == Words(s)
  {
    CollapseChar(s);
    WordsHeadCharAt(CollapseSpaces(s), s, s[0], CollapseSpaces(s[1..]), s[1..]);
  }

  /** One step of `CollapseSpaces` on a non-space character. */
  lemma {:induction false} CollapseChar(s: String)
    requires s != [] && !IsSpace(s[0])
    ensures s == [s[0]] + s[1..]
    ensures CollapseSpaces(s) == [s[0]] + CollapseSpaces(s[1..])
    ensures BreaksAt(CollapseSpaces(s[1..])) == BreaksAt(s[1..])
  {
  }

  /** `WordsHeadChar` for two strings already split at their first character. */
  lemma {:induction false} WordsHeadCharAt(s1: String, s2: String, c: char, y1: String, y2: String)
    requires s1 == [c] + y1 && s2 == [c] + y2 && !IsSpace(c)
    requires Words(y1) == Words(y2) && BreaksAt(y1) == BreaksAt(y2)
    ensures Words(s1) == Words(s2)
  {
    WordsHeadChar(c, y1, y2);
  }

  // ---------------------------------------------------------------------------
  // Substrings

  predicate StartsWith(s: String, p: String) {
    |p| <= |s| && s[..|p|] == p
  }

  /** `s.includes(p)`, scanning the start positions of `s` one by one. */
  predicate Contains(s: String, p: String)
    decreases |s|
  {
    StartsWith(s, p) || (s != [] && Contains(s[1..], p))
  }

  /** The reference definition of a substring: `p` occurs at some index of `s`. */
  ghost predicate OccursAt(s: String, p: String, i: int) {
    0 <= i <= |s| - |p| && s[i..i + |p|] == p
  }

  /** The scan agrees with the reference definition in both directions. */
  lemma {:induction false} ContainsIff(s: String, p: String)
    ensures Contains(s, p) <==> exists i :: OccursAt(s, p, i)
    decreases |s|
  {
    if StartsWith(s, p) {
      assert OccursAt(s, p, 0);
    }
    if s != [] {
      ContainsIff(s[1..], p);
      OccursFromTail(s, p);
      OccursInTail(s, p);
    }
  }

  /** An occurrence in the tail is an occurrence one place further on. */
  lemma OccursFromTail(s: String, p: String)
    requires s != []
    ensures (exists j :: OccursAt(s[1..], p, j)) ==> exists i :: OccursAt(s, p, i)
  {
    if j :| OccursAt(s[1..], p, j) {
      assert s[j + 1..j + 1 + |p|] == s[1..][j..j + |p|];
      assert OccursAt(s, p, j + 1);
    }
  }

  /** An occurrence not at the start is an occurrence in the tail. */
  lemma OccursInTail(s: String, p: String)
    requires s != []
    ensures (exists i :: OccursAt(s, p, i)) ==> StartsWith(s, p) || exists j :: OccursAt(s[1..], p, j)
  {
    if i :| OccursAt(s, p, i) {
      if i == 0 {
        assert StartsWith(s, p);
      } else {
        SliceShift(s, i, i + |p|);
        assert OccursAt(s[1..], p, i - 1);
      }
    }
  }

  lemma SliceShift(s: String, a: nat, b: nat)
    requires 1 <= a <= b <= |s|
    ensures s[1..][a - 1..b - 1] == s[a..b]
  {
    assert forall j :: 0 <= j < b - a ==> s[1..][a - 1..b - 1][j] == s[a..b][j];
  }

  /** A pattern longer than the text never occurs in it. */
  lemma {:induction false} NotContainedWhenLonger(s: String, p: String)
    requires |p| > |s|
    ensures !Contains(s, p)
    decreases |s|
  {
    if s != [] {
      NotContainedWhenLonger(s[1..], p);
    }
  }

  /** `s.indexOf(c)`: the first index holding `c`, or -1 when there is none. */
  function IndexOf(s: String, c: char): (r: int)
    ensures -1 <= r < |s|
    ensures r >= 0 ==> s[r] == c && c !in s[..r]
    ensures r == -1 ==> c !in s
    decreases |s|
  {
    if s == [] then -1
    else if s[0] == c then 0
    else
      var k := IndexOf(s[1..], c);
      if k < 0 then -1
      else
        assert s[..k + 1] == [s[0]] + s[1..][..k];
        k + 1
  }

  // ---------------------------------------------------------------------------
  // Splitting and joining

  /** `s.split(sep)` for a one-character separator: never empty, and no piece
      contains the separator. */
  function Split(s: String, sep: char): (r: seq<String>)
    ensures |r| >= 1
    ensures forall i :: 0 <= i < |r| ==> sep !in r[i]
    decreases |s|
  {
    var k := IndexOf(s, sep);
    if k < 0 then [s]
    else
      var rest := Split(s[k + 1..], sep);
      NoSeparatorCons(s[..k], rest, sep);
      [s[..k]] + rest
  }

  lemma NoSeparatorCons(p: String, rest: seq<String>, sep: char)
    requires sep !in p && forall i :: 0 <= i < |rest| ==> sep !in rest[i]
    ensures forall i :: 0 <= i < |rest| + 1 ==> sep !in ([p] + rest)[i]
  {
  }

  /** `parts.join(sep)`. */
  function Join(parts: seq<String>, sep: String): String
    decreases |parts|
  {
    if |parts| == 0 then []
    else if |parts| == 1 then parts[0]
    else parts[0] + sep + Join(parts[1..], sep)
  }

  /** The first separator of `a + [c] + b` is the one after `a` when `a` has none. */
  lemma IndexOfAfter(a: String, c: char, b: String)
    requires c !in a
    ensures IndexOf(a + [c] + b, c) == |a|
  {
    var s := a + [c] + b;
    var r := IndexOf(s, c);
    assert forall j :: 0 <= j < |a| ==> s[j] == a[j];
    assert s[|a|] == c;
  }

  /** Joining with a separator that no part contains, then splitting on it,
      gives the parts back. */
  lemma {:induction false} SplitJoin(parts: seq<String>, sep: char)
    requires |parts| >= 1
    requires forall i :: 0 <= i < |parts| ==> sep !in parts[i]
    ensures Split(Join(parts, [sep]), sep) == parts
    decreases |parts|
  {
    if |parts| > 1 {
      var rest := Join(parts[1..], [sep]);
      IndexOfAfter(parts[0], sep, rest);
      var s := parts[0] + [sep] + rest;
      assert s[..|parts[0]|] == parts[0];
      assert s[|parts[0]| + 1..] == rest;
      SplitJoin(parts[1..], sep);
      assert parts == [parts[0]] + parts[1..];
    }
  }

  /** Splitting and joining again with the same separator loses nothing. */
  lemma {:induction false} JoinSplit(s: String, sep: char)
    ensures Join(Split(s, sep), [sep]) == s
    decreases |s|
  {
    var k := IndexOf(s, sep);
    if k >= 0 {
      var tail := s[k + 1..];
      calc {
        Join(Split(s, sep), [sep]);
        Join([s[..k]] + Split(tail, sep), [sep]);
        { JoinCons(s[..k], Split(tail, sep), [sep]); }
        s[..k] + [sep] + Join(Split(tail, sep), [sep]);
        { JoinSplit(tail, sep); }
        s[..k] + [sep] + tail;
        s;
      }
    }
  }

  lemma JoinCons(p: String, rest: seq<String>, sep: String)
    requires |rest| >= 1
    ensures Join([p] + rest, sep) == p + sep + Join(rest, sep)
  {
    assert ([p] + rest)[1..] == rest;
  }

  /** `[...s].reverse()`: the element at index i moves to index |s| - 1 - i. */
  function Reverse<T>(s: seq<T>): (r: seq<T>)
    ensures |r| == |s|
  {
    seq(|s|, i requires 0 <= i < |s| => s[|s| - 1 - i])
  }

  /** Reversing a sequence with one more element at the back puts it first. */
  lemma ReverseSnoc<T>(s: seq<T>, x: T)
    ensures Reverse(s + [x]) == [x] + Reverse(s)
  {
  }

  // ---------------------------------------------------------------------------
  // Decimal rendering of numbers (`${n}`, `String(n)` on integers)

  function DigitChar(d: nat): (c: char)
    requires d < 10
    ensures '0' <= c <= '9'
  {
    ('0' as int + d) as char
  }

  function DigitValue(c: char): nat {
    if '0' <= c <= '9' then c as int - '0' as int else 0
  }

  predicate AllDigits(s: String) {
    forall i :: 0 <= i < |s| ==> '0' <= s[i] <= '9'
  }

  /** The decimal digits of `n`, most significant first, without leading zeros. */
  function NatToString(n: nat): (r: String)
    ensures |r| >= 1 && AllDigits(r)
    ensures |r| > 1 ==> r[0] != '0'
    decreases n
  {
    if n < 10 then [DigitChar(n)] else NatToString(n / 10) + [DigitChar(n % 10)]
  }

  /** Reads a string of decimal digits back as a number. */
  function ParseDigits(s: String): nat
    decreases |s|
  {
    if s == [] then 0 else 10 * ParseDigits(s[..|s| - 1]) + DigitValue(s[|s| - 1])
  }

  /** Rendering a number and reading it back gives the number: two different
      numbers are never shown the same. */
  lemma {:induction false} ParseNatToString(n: nat)
    ensures ParseDigits(NatToString(n)) == n
    decreases n
  {
    if n >= 10 {
      ParseNatToString(n / 10);
      var s := NatToString(n);
      assert s[..|s| - 1] == NatToString(n / 10);
      assert DigitValue(s[|s| - 1]) == n % 10;
    }
  }

  /** `String(i)` for an integer. */
  function IntToString(i: int): (r: String)
    ensures r != []
    ensures i < 0 <==> r[0] == '-'
  {
    if i < 0 then "-" + NatToString(-i) else NatToString(i)
  }
}

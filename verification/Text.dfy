/** The string operations that sigmond's text formats are read and written with:
    splitting, joining, stripping, and decimal integers. */
module Text {

  datatype Option<T> = None | Some(value: T) {
    function GetOr(default: T): T {
      if Some? then value else default
    }
  }

  lemma AppendOne<T>(a: seq<T>, x: T, b: seq<T>)
    ensures a + ([x] + b) == a + [x] + b
  {
  }

  /** The characters that `str.split()` and `str.strip()` treat as white space. */
  predicate IsSpace(c: char) {
    var n := c as int;
    || 0x09 <= n <= 0x0d || 0x1c <= n <= 0x20 || n == 0x85 || n == 0xa0 || n == 0x1680
    || 0x2000 <= n <= 0x200a || n == 0x2028 || n == 0x2029 || n == 0x202f || n == 0x205f || n == 0x3000
  }

  /** The characters that `str.splitlines()` ends a line at. */
  predicate IsBreak(c: char) {
    var n := c as int;
    0x0a <= n <= 0x0d || 0x1c <= n <= 0x1e || n == 0x85 || n == 0x2028 || n == 0x2029
  }

  predicate NoSpace(s: string) {
    forall i :: 0 <= i < |s| ==> !IsSpace(s[i])
  }

  /** A word is what splitting on white space can yield. */
  predicate IsWord(s: string) {
    s != [] && NoSpace(s)
  }

  /** How long the word at the start of `s` is. */
  function WordEnd(s: string): (n: nat)
    requires s != [] && !IsSpace(s[0])
    ensures 1 <= n <= |s| && (forall i :: 0 <= i < n ==> !IsSpace(s[i])) && (n == |s| || IsSpace(s[n]))
  {
    if |s| == 1 || IsSpace(s[1]) then 1 else 1 + WordEnd(s[1..])
  }

  /** `s.split()` */
  function Words(s: string): seq<string> {
    if s == [] then []
    else if IsSpace(s[0]) then Words(s[1..])
    else
      var n := WordEnd(s);
      [s[..n]] + Words(s[n..])
  }

  lemma WordsCons(w: string, rest: string)
    requires IsWord(w) && (rest == [] || IsSpace(rest[0]))
    ensures Words(w + rest) == [w] + Words(rest)
  {
    var s := w + rest;
    var n := WordEnd(s);
    assert rest != [] ==> s[|w|] == rest[0];
    assert s[..n] == w && s[n..] == rest;
  }

  lemma WordsConcatAtWord(w: string, tail: string, rest: string, more: seq<string>)
    requires IsWord(w) && (tail == [] || IsSpace(tail[0])) && rest != [] && IsSpace(rest[0])
    requires Words(tail + rest) == Words(tail) + more
    ensures Words((w + tail) + rest) == Words(w + tail) + more
  {
    hide *;
    WordsCons(w, tail);
    WordsCons(w, tail + rest);
    assert (w + tail) + rest == w + (tail + rest);
    assert [w] + (Words(tail) + more) == ([w] + Words(tail)) + more;
  }

  /** A text that begins with a word is that word and a tail. */
  lemma FirstWord(s: string) returns (w: string, tail: string)
    requires s != [] && !IsSpace(s[0])
    ensures IsWord(w) && s == w + tail && (tail == [] || IsSpace(tail[0])) && |tail| < |s|
  {
    var n := WordEnd(s);
    w, tail := s[..n], s[n..];
  }

  lemma WordsSkipSpace(s: string)
    requires s != [] && IsSpace(s[0])
    ensures Words(s) == Words(s[1..])
  {
  }

  lemma WordsConcatAtSpace(a: string, rest: string)
    requires a != [] && IsSpace(a[0])
    requires Words(a[1..] + rest) == Words(a[1..]) + Words(rest)
    ensures Words(a + rest) == Words(a) + Words(rest)
  {
    hide *;
    WordsSkipSpace(a);
    WordsSkipSpace(a + rest);
    assert (a + rest)[1..] == a[1..] + rest;
  }

  lemma {:induction false} WordsConcatSpaced(a: string, rest: string)
    requires rest != [] && IsSpace(rest[0])
    ensures Words(a + rest) == Words(a) + Words(rest)
    decreases |a|
  {
    hide *;
    if a == [] {
      NoWords();
      assert a + rest == rest;
    } else if IsSpace(a[0]) {
      WordsConcatSpaced(a[1..], rest);
      WordsConcatAtSpace(a, rest);
    } else {
      var w, tail := FirstWord(a);
      WordsConcatSpaced(tail, rest);
      WordsConcatAtWord(w, tail, rest, Words(rest));
    }
  }

  lemma NoWords()
    ensures Words([]) == []
  {
  }

  /** A space separates the words of two texts. */
  lemma WordsConcat(a: string, b: string)
    ensures Words(a + " " + b) == Words(a) + Words(b)
  {
    var rest := " " + b;
    WordsConcatSpaced(a, rest);
    assert a + " " + b == a + rest && rest[1..] == b;
  }

  /** Concatenation with a separator: `sep.join(parts)` */
  function Join(parts: seq<string>, sep: char): string {
    if parts == [] then []
    else if |parts| == 1 then parts[0]
    else parts[0] + [sep] + Join(parts[1..], sep)
  }

  lemma {:induction false} WordsOfJoin(parts: seq<string>)
    requires forall p :: p in parts ==> IsWord(p)
    ensures Words(Join(parts, ' ')) == parts
  {
    if parts == [] {
    } else if |parts| == 1 {
      WordsCons(parts[0], []);
      assert parts[0] + [] == parts[0];
      assert parts == [parts[0]];
    } else {
      var tail := Join(parts[1..], ' ');
      WordsCons(parts[0], [' '] + tail);
      assert parts[0] + [' '] + tail == parts[0] + ([' '] + tail);
      assert ([' '] + tail)[1..] == tail;
      WordsOfJoin(parts[1..]);
    }
  }

  /** `s.split(sep)` */
  function SplitOn(s: string, sep: char): (r: seq<string>)
    ensures r != []
  {
    if s == [] then [[]]
    else if s[0] == sep then [[]] + SplitOn(s[1..], sep)
    else
      var r := SplitOn(s[1..], sep);
      [[s[0]] + r[0]] + r[1..]
  }

  lemma {:induction false} SplitOnPlain(s: string, sep: char)
    requires sep !in s
    ensures SplitOn(s, sep) == [s]
  {
    if s == [] {
    } else {
      SplitOnPlain(s[1..], sep);
      assert [s[0]] + s[1..] == s;
    }
  }

  lemma {:induction false} SplitOnCons(s: string, sep: char, rest: string)
    requires sep !in s
    ensures SplitOn(s + [sep] + rest, sep) == [s] + SplitOn(rest, sep)
  {
    var whole := s + [sep] + rest;
    if s == [] {
      assert whole[1..] == rest;
    } else {
      SplitOnCons(s[1..], sep, rest);
      assert whole[1..] == s[1..] + [sep] + rest;
      assert [s[0]] + s[1..] == s;
    }
  }

  /** Splitting undoes joining when no part holds the separator. */
  lemma {:induction false} SplitOfJoin(parts: seq<string>, sep: char)
    requires parts != [] && forall p :: p in parts ==> sep !in p
    ensures SplitOn(Join(parts, sep), sep) == parts
  {
    assert parts[0] in parts;
    if |parts| == 1 {
      SplitOnPlain(parts[0], sep);
    } else {
      SplitOnCons(parts[0], sep, Join(parts[1..], sep));
      SplitOfJoin(parts[1..], sep);
    }
  }

  /** Where `sep` first occurs, or the length when it does not. */
  function IndexOf(s: string, sep: char): (n: nat)
    ensures n <= |s| && (forall i :: 0 <= i < n ==> s[i] != sep) && (n < |s| ==> s[n] == sep)
  {
    if s == [] || s[0] == sep then 0 else 1 + IndexOf(s[1..], sep)
  }

  /** `s.partition(sep)[0]` */
  function Before(s: string, sep: char): string {
    s[..IndexOf(s, sep)]
  }

  /** `s.partition(sep)[2]` */
  function After(s: string, sep: char): string {
    var n := IndexOf(s, sep);
    if n < |s| then s[n + 1..] else []
  }

  lemma PartitionAt(a: string, sep: char, b: string)
    requires sep !in a
    ensures Before(a + [sep] + b, sep) == a && After(a + [sep] + b, sep) == b
  {
    var s := a + [sep] + b;
    var n := IndexOf(s, sep);
    assert s[|a|] == sep;
    assert forall i :: 0 <= i < |a| ==> s[i] == a[i];
  }

  /** `s.replace(from, to)` for single characters */
  function Replace(s: string, from: char, to: char): (r: string)
    ensures |r| == |s|
    ensures forall i :: 0 <= i < |s| ==> r[i] == if s[i] == from then to else s[i]
  {
    seq(|s|, i requires 0 <= i < |s| => if s[i] == from then to else s[i])
  }

  lemma {:induction false} ReplaceInJoin(parts: seq<string>, from: char, to: char)
    requires forall p :: p in parts ==> from !in p
    ensures Replace(Join(parts, from), from, to) == Join(parts, to)
  {
    if parts == [] {
    } else {
      assert parts[0] in parts;
      if |parts| > 1 {
        ReplaceInJoin(parts[1..], from, to);
        assert Replace(Join(parts, from), from, to)
          == parts[0] + [to] + Replace(Join(parts[1..], from), from, to);
      }
    }
  }

  function LStrip(s: string): string {
    if s != [] && IsSpace(s[0]) then LStrip(s[1..]) else s
  }

  function RStrip(s: string): string {
    if s != [] && IsSpace(s[|s| - 1]) then RStrip(s[..|s| - 1]) else s
  }

  /** `s.strip()` */
  function Strip(s: string): string {
    RStrip(LStrip(s))
  }

  predicate Stripped(s: string) {
    s == [] || (!IsSpace(s[0]) && !IsSpace(s[|s| - 1]))
  }

  lemma {:induction false} LStripIs(s: string)
    ensures LStrip(s) == [] || !IsSpace(LStrip(s)[0])
    ensures forall c :: c in s && !IsSpace(c) ==> c in LStrip(s)
  {
    if s != [] && IsSpace(s[0]) {
      LStripIs(s[1..]);
      assert s == [s[0]] + s[1..];
    }
  }

  lemma {:induction false} RStripIs(s: string)
    requires s == [] || !IsSpace(s[0])
    ensures Stripped(RStrip(s))
    ensures forall c :: c in s && !IsSpace(c) ==> c in RStrip(s)
  {
    if s != [] && IsSpace(s[|s| - 1]) {
      RStripIs(s[..|s| - 1]);
      assert s == s[..|s| - 1] + [s[|s| - 1]];
    }
  }

  /** Stripping leaves no white space at the ends and drops nothing else. */
  lemma StripIs(s: string)
    ensures Stripped(Strip(s))
    ensures forall c :: c in s && !IsSpace(c) ==> c in Strip(s)
  {
    LStripIs(s);
    RStripIs(LStrip(s));
  }

  lemma StrippedStays(s: string)
    requires Stripped(s)
    ensures LStrip(s) == s && Strip(s) == s
  {
  }

  predicate IsDigit(c: char) {
    '0' <= c <= '9'
  }

  predicate AllDigits(s: string) {
    s != [] && forall i :: 0 <= i < |s| ==> IsDigit(s[i])
  }

  function DigitValue(c: char): nat
    requires IsDigit(c)
  {
    c as int - '0' as int
  }

  function DigitChar(d: nat): (c: char)
    requires d < 10
    ensures IsDigit(c) && DigitValue(c) == d
  {
    ('0' as int + d) as char
  }

  /** `str(n)` */
  function ToDecimal(n: nat): (s: string)
    ensures AllDigits(s)
  {
    if n < 10 then [DigitChar(n)] else ToDecimal(n / 10) + [DigitChar(n % 10)]
  }

  /** The digits `int()` reads: single underscores may stand between digits. */
  function Digits(s: string): Option<nat>
    decreases |s|
  {
    var n := |s|;
    if n == 0 || !IsDigit(s[n - 1]) then None
    else if n == 1 then Some(DigitValue(s[0]))
    else
      match Digits(if s[n - 2] == '_' then s[..n - 2] else s[..n - 1])
      case None => None
      case Some(high) => Some(10 * high + DigitValue(s[n - 1]))
  }

  /** `int(s)`, where None stands for ValueError */
  function ParseInt(s: string): Option<int> {
    var t := Strip(s);
    if t == [] then None
    else if t[0] == '+' || t[0] == '-' then
      match Digits(t[1..])
      case None => None
      case Some(n) => Some(if t[0] == '-' then -(n as int) else n as int)
    else
      match Digits(t)
      case None => None
      case Some(n) => Some(n)
  }

  /** `str(n)` for an integer of either sign */
  function ToInt(n: int): string {
    if n < 0 then ['-'] + ToDecimal(-n) else ToDecimal(n)
  }

  lemma {:induction false} DigitsOfDecimal(n: nat)
    ensures Digits(ToDecimal(n)) == Some(n)
  {
    if n >= 10 {
      DigitsOfDecimal(n / 10);
      var s := ToDecimal(n);
      assert s[..|s| - 1] == ToDecimal(n / 10);
      assert IsDigit(s[|s| - 2]);
    }
  }

  lemma DigitsAreNotSpace(s: string)
    requires AllDigits(s)
    ensures NoSpace(s)
  {
  }

  /** Reading a printed integer gives it back. */
  lemma ParseOfDecimal(n: nat)
    ensures ParseInt(ToDecimal(n)) == Some(n)
  {
    DigitsOfDecimal(n);
    DigitsAreNotSpace(ToDecimal(n));
  }

  lemma ParseOfNegative(digits: string, n: nat)
    requires AllDigits(digits) && Digits(digits) == Some(n)
    ensures ParseInt(['-'] + digits) == Some(-(n as int)) && NoSpace(['-'] + digits)
  {
    DigitsAreNotSpace(digits);
    assert (['-'] + digits)[1..] == digits;
    assert Stripped(['-'] + digits);
    StrippedStays(['-'] + digits);
    hide Strip, Digits, Stripped;
  }

  lemma ParseOfInt(n: int)
    ensures ParseInt(ToInt(n)) == Some(n)
    ensures ToInt(n) != [] && NoSpace(ToInt(n))
  {
    if n < 0 {
      DigitsOfDecimal(-n);
      ParseOfNegative(ToDecimal(-n), -n);
      hide ParseInt, ToDecimal;
    } else {
      ParseOfDecimal(n);
      DigitsAreNotSpace(ToDecimal(n));
    }
  }

  lemma {:induction false} SpacesStrip(s: string)
    requires forall i :: 0 <= i < |s| ==> IsSpace(s[i])
    ensures LStrip(s) == [] && Strip(s) == []
  {
    if s != [] {
      SpacesStrip(s[1..]);
    }
  }

  /** A text is blank when it has nothing but white space. */
  lemma StripsToNothing(s: string)
    ensures Strip(s) == [] <==> forall i :: 0 <= i < |s| ==> IsSpace(s[i])
  {
    if forall i :: 0 <= i < |s| ==> IsSpace(s[i]) {
      SpacesStrip(s);
    } else {
      var i :| 0 <= i < |s| && !IsSpace(s[i]);
      StripIs(s);
      assert s[i] in s;
    }
    hide Strip, IsSpace;
  }
}

/** Joining and splitting lines, and rendering whole numbers in decimal. */
module Text {

  /** The lines joined with a newline between each two (Python's `"\n".join`). */
  function JoinLines(lines: seq<string>): string {
    if |lines| == 0 then ""
    else if |lines| == 1 then lines[0]
    else lines[0] + "\n" + JoinLines(lines[1..])
  }

  /** The pieces of `s` between newlines (Python's `s.split("\n")`); there is always one more piece than newlines. */
  function SplitLines(s: string): (lines: seq<string>)
    ensures |lines| >= 1
  {
    if s == [] then [[]]
    else
      var rest := SplitLines(s[1..]);
      if s[0] == '\n' then [[]] + rest else [[s[0]] + rest[0]] + rest[1..]
  }

  lemma {:induction false} SplitSingleLine(s: string)
    requires '\n' !in s
    ensures SplitLines(s) == [s]
  {
    if s != [] {
      SplitSingleLine(s[1..]);
      assert [s[0]] + s[1..] == s;
    }
  }

  /** Splitting a string that starts with `c`: a newline opens a new piece, any other character joins the first. */
  lemma SplitCons(c: char, t: string)
    ensures SplitLines([c] + t) ==
      if c == '\n' then [[]] + SplitLines(t) else [[c] + SplitLines(t)[0]] + SplitLines(t)[1..]
  {
    var s := [c] + t;
    assert s[0] == c && s[1..] == t;
  }

  /** A single line followed by a newline is the first piece; the rest splits on its own. */
  lemma {:induction false} SplitAfterLine(line: string, rest: string)
    requires '\n' !in line
    ensures SplitLines(line + "\n" + rest) == [line] + SplitLines(rest)
    decreases |line|
  {
    if line == [] {
      assert line + "\n" + rest == ['\n'] + rest;
      SplitCons('\n', rest);
    } else {
      var c, tail := line[0], line[1..];
      assert line == [c] + tail;
      assert line + "\n" + rest == [c] + (tail + "\n" + rest);
      SplitCons(c, tail + "\n" + rest);
      SplitAfterLine(tail, rest);
    }
  }

  /** Joining two non-empty runs of lines puts a newline between their texts. */
  lemma {:induction false} JoinAppend(a: seq<string>, b: seq<string>)
    requires |a| >= 1 && |b| >= 1
    ensures JoinLines(a + b) == JoinLines(a) + "\n" + JoinLines(b)
    decreases |a|
  {
    var ab := a + b;
    assert ab[0] == a[0];
    if |a| == 1 {
      assert ab[1..] == b;
    } else {
      assert ab[1..] == a[1..] + b;
      JoinAppend(a[1..], b);
      var x, y, z := a[0], JoinLines(a[1..]), JoinLines(b);
      assert x + "\n" + (y + "\n" + z) == (x + "\n" + y) + "\n" + z;
    }
  }

  /** No newline inside any of the strings. */
  predicate SingleLines(lines: seq<string>) {
    forall i :: 0 <= i < |lines| ==> '\n' !in lines[i]
  }

  lemma SingleLinesAppend(a: seq<string>, b: seq<string>)
    requires SingleLines(a) && SingleLines(b)
    ensures SingleLines(a + b)
  {
    forall i | 0 <= i < |a + b| ensures '\n' !in (a + b)[i] {
      if i >= |a| {
        assert (a + b)[i] == b[i - |a|];
      }
    }
  }

  /** Joining two lines, a non-empty run of lines and a last line. */
  lemma JoinFramed(h: string, f: string, ds: seq<string>, p: string)
    requires ds != []
    ensures JoinLines([h, f] + ds + [p]) == h + "\n" + f + "\n" + JoinLines(ds) + "\n" + p
  {
    var body := ds + [p];
    JoinAppend(ds, [p]);
    JoinAppend([f], body);
    JoinAppend([h], [f] + body);
    assert [h, f] + ds + [p] == [h] + ([f] + body);
    var j := JoinLines(ds);
    assert h + "\n" + (f + "\n" + (j + "\n" + p)) == h + "\n" + f + "\n" + j + "\n" + p;
  }

  /** Two single-line heads, single-line middle lines and a single-line tail, joined, split back apart. */
  lemma SplitFramed(h: string, f: string, ds: seq<string>, p: string)
    requires '\n' !in h && '\n' !in f && '\n' !in p
    requires ds != [] && SingleLines(ds)
    ensures SplitLines(h + "\n" + f + "\n" + JoinLines(ds) + "\n" + p) == [h, f] + ds + [p]
  {
    var lines := [h, f] + ds + [p];
    assert SingleLines([h, f]) && SingleLines([p]);
    SingleLinesAppend([h, f], ds);
    SingleLinesAppend([h, f] + ds, [p]);
    SplitJoin(lines);
    JoinFramed(h, f, ds, p);
  }

  /** Joining single-line strings and splitting the result gives them back. */
  lemma {:induction false} SplitJoin(lines: seq<string>)
    requires |lines| >= 1
    requires SingleLines(lines)
    ensures SplitLines(JoinLines(lines)) == lines
  {
    if |lines| == 1 {
      SplitSingleLine(lines[0]);
    } else {
      SplitAfterLine(lines[0], JoinLines(lines[1..]));
      SplitJoin(lines[1..]);
      assert [lines[0]] + lines[1..] == lines;
    }
  }

  predicate IsDigit(c: char) {
    '0' <= c <= '9'
  }

  function DigitChar(d: nat): (c: char)
    requires d < 10
    ensures IsDigit(c) && c as int - '0' as int == d
  {
    ('0' as int + d) as char
  }

  /** The decimal numeral of `n`, without leading zeros. */
  function NatToString(n: nat): (s: string)
    ensures |s| >= 1
    ensures forall i :: 0 <= i < |s| ==> IsDigit(s[i])
    ensures s[0] == '0' ==> n == 0
  {
    if n < 10 then [DigitChar(n)] else NatToString(n / 10) + [DigitChar(n % 10)]
  }

  /** The number a string of decimal digits denotes. */
  function DecimalValue(s: string): int
    requires forall i :: 0 <= i < |s| ==> IsDigit(s[i])
  {
    if s == [] then 0 else 10 * DecimalValue(s[..|s| - 1]) + (s[|s| - 1] as int - '0' as int)
  }

  /** Reading back the numeral gives the number. */
  lemma {:induction false} DecimalRoundTrip(n: nat)
    ensures DecimalValue(NatToString(n)) == n
  {
    var s := NatToString(n);
    if n >= 10 {
      DecimalRoundTrip(n / 10);
      assert s[..|s| - 1] == NatToString(n / 10);
    }
  }

  /** Python's `format(n, ".2f")` for a whole number `n`. */
  function FixedTwoDecimals(n: nat): (s: string)
    ensures '\n' !in s
  {
    NatToString(n) + ".00"
  }
}

/** The Python string operations the program relies on: `strip`, `rstrip`,
    `join`, `split`, `isdigit`, `int` of a digit string and `lower` as far as
    comparing with "true"/"false" needs it. */
module Text {

  /** Python's `str.isspace()` for one character: the ASCII white space and
      separators plus the Unicode space and line separators. */
  predicate IsSpace(c: char) {
    || ('\t' <= c <= '\r')
    || ('\U{1C}' <= c <= '\U{1F}')
    || c == ' ' || c == '\U{85}' || c == '\U{A0}' || c == '\U{1680}'
    || ('\U{2000}' <= c <= '\U{200A}')
    || c == '\U{2028}' || c == '\U{2029}' || c == '\U{202F}' || c == '\U{205F}'
    || c == '\U{3000}'
  }

  /** `s.lstrip()` */
  function LStrip(s: string): (r: string)
    ensures |r| <= |s|
    ensures r == [] || !IsSpace(r[0])
    ensures r != [] ==> r[|r| - 1] == s[|s| - 1]
  {
    if s == [] || !IsSpace(s[0]) then s else LStrip(s[1..])
  }

  /** What `lstrip` removes is white space. */
  lemma {:induction false} LStripDropsSpace(s: string)
    ensures forall k :: 0 <= k < |s| - |LStrip(s)| ==> IsSpace(s[k])
  {
    if s != [] && IsSpace(s[0]) {
      LStripDropsSpace(s[1..]);
      forall k | 1 <= k < |s| - |LStrip(s)| ensures IsSpace(s[k]) {
        assert s[k] == s[1..][k - 1];
      }
    }
  }

  /** What `lstrip` keeps is the tail of its argument. */
  lemma {:induction false} LStripSuffix(s: string)
    ensures LStrip(s) == s[|s| - |LStrip(s)|..]
  {
    if s != [] && IsSpace(s[0]) {
      LStripSuffix(s[1..]);
    }
  }

  /** `s.rstrip()` */
  function RStrip(s: string): (r: string)
    ensures |r| <= |s|
    ensures r == [] || !IsSpace(r[|r| - 1])
  {
    if s == [] || !IsSpace(s[|s| - 1]) then s else RStrip(s[..|s| - 1])
  }

  /** What `rstrip` removes is white space. */
  lemma {:induction false} RStripDropsSpace(s: string)
    ensures forall k :: |RStrip(s)| <= k < |s| ==> IsSpace(s[k])
  {
    if s != [] && IsSpace(s[|s| - 1]) {
      RStripDropsSpace(s[..|s| - 1]);
    }
  }

  /** What `rstrip` keeps is a prefix of its argument. */
  lemma {:induction false} RStripPrefix(s: string)
    ensures RStrip(s) <= s
  {
    if s != [] && IsSpace(s[|s| - 1]) {
      RStripPrefix(s[..|s| - 1]);
    }
  }

  /** `s.strip()` */
  function Strip(s: string): (r: string)
    ensures r == [] || (!IsSpace(r[0]) && !IsSpace(r[|r| - 1]))
    ensures |r| <= |s|
  {
    LStrip(RStrip(s))
  }

  /** White space added after a string that does not end in it is exactly
      what `rstrip` removes. */
  lemma {:induction false} RStripPadded(x: string, post: string)
    requires x == [] || !IsSpace(x[|x| - 1])
    requires forall k :: 0 <= k < |post| ==> IsSpace(post[k])
    ensures RStrip(x + post) == x
  {
    if post != [] {
      var shorter := post[..|post| - 1];
      assert (x + post)[..|x + post| - 1] == x + shorter;
      RStripPadded(x, shorter);
    } else {
      assert x + post == x;
    }
  }

  /** White space put before a string that does not start with it is
      exactly what `lstrip` removes. */
  lemma {:induction false} LStripPadded(pre: string, x: string)
    requires x == [] || !IsSpace(x[0])
    requires forall k :: 0 <= k < |pre| ==> IsSpace(pre[k])
    ensures LStrip(pre + x) == x
  {
    if pre != [] {
      assert (pre + x)[1..] == pre[1..] + x;
      LStripPadded(pre[1..], x);
    } else {
      assert pre + x == x;
    }
  }

  /** `strip` undoes padding with white space on both sides. */
  lemma StripPadded(pre: string, x: string, post: string)
    requires x != [] && !IsSpace(x[0]) && !IsSpace(x[|x| - 1])
    requires forall k :: 0 <= k < |pre| ==> IsSpace(pre[k])
    requires forall k :: 0 <= k < |post| ==> IsSpace(post[k])
    ensures Strip(pre + x + post) == x
  {
    RStripPadded(pre + x, post);
    LStripPadded(pre, x);
  }

  /** `s.rstrip(c)` for a single character `c`. */
  function RStripChar(s: string, c: char): (r: string)
    ensures |r| <= |s|
    ensures r == [] || r[|r| - 1] != c
  {
    if s == [] || s[|s| - 1] != c then s else RStripChar(s[..|s| - 1], c)
  }

  /** What `rstrip(c)` removes is copies of `c`. */
  lemma {:induction false} RStripCharDrops(s: string, c: char)
    ensures forall k :: |RStripChar(s, c)| <= k < |s| ==> s[k] == c
  {
    if s != [] && s[|s| - 1] == c {
      RStripCharDrops(s[..|s| - 1], c);
    }
  }

  /** What `rstrip(c)` keeps is a prefix of its argument. */
  lemma {:induction false} RStripCharPrefix(s: string, c: char)
    ensures RStripChar(s, c) <= s
  {
    if s != [] && s[|s| - 1] == c {
      RStripCharPrefix(s[..|s| - 1], c);
    }
  }

  /** `rstrip(c)` leaves a string alone when it does not end in `c`, and
      removes one final `c` that follows such a string. */
  lemma RStripCharOne(x: string, c: char)
    requires x == [] || x[|x| - 1] != c
    ensures RStripChar(x, c) == x
    ensures RStripChar(x + [c], c) == x
  {
    assert (x + [c])[..|x|] == x;
  }

  /** Stripping white space and then a character keeps the first character
      of a string that starts with neither. */
  lemma StripThenRStripCharKeepsHead(s: string, c: char)
    requires s != [] && !IsSpace(s[0]) && s[0] != c
    ensures var r := RStripChar(Strip(s), c); r != [] && r[0] == s[0]
  {
    var t := RStrip(s);
    RStripDropsSpace(s);
    RStripPrefix(s);
    assert t != [] && t[0] == s[0];
    assert Strip(s) == t;
    var r := RStripChar(t, c);
    RStripCharDrops(t, c);
    RStripCharPrefix(t, c);
    assert [t[0]] <= t;
    assert |r| >= 1 && r[0] == t[0];
  }

  /** True when the string has no white space at either end. */
  predicate Trimmed(s: string) {
    s == [] || (!IsSpace(s[0]) && !IsSpace(s[|s| - 1]))
  }

  /** Stripping a string without white space at its ends changes nothing. */
  lemma StripTrimmed(s: string)
    requires Trimmed(s)
    ensures Strip(s) == s
  {
  }

  /** A blank string is one that strips to nothing: Python's
      `not s or not s.strip()`. */
  predicate Blank(s: string) {
    Strip(s) == []
  }

  lemma BlankIffAllSpace(s: string)
    ensures Blank(s) <==> forall k :: 0 <= k < |s| ==> IsSpace(s[k])
  {
    RStripDropsSpace(s);
    RStripPrefix(s);
    LStripDropsSpace(RStrip(s));
  }

  /** The text of an f-string: its parts one after the other. */
  function Concat(parts: seq<string>): string {
    if parts == [] then "" else parts[0] + Concat(parts[1..])
  }

  /** Five parts concatenate as written. */
  lemma ConcatFive(a: string, b: string, c: string, d: string, e: string)
    ensures Concat([a, b, c, d, e]) == a + b + c + d + e
  {
    assert [a, b, c, d, e][1..] == [b, c, d, e];
    assert [b, c, d, e][1..] == [c, d, e];
    assert [c, d, e][1..] == [d, e];
    assert [d, e][1..] == [e];
    assert [e][1..] == [];
    assert Concat([e]) == e + "" == e;
    assert Concat([d, e]) == d + e;
    assert Concat([c, d, e]) == c + (d + e);
    assert Concat([b, c, d, e]) == b + (c + (d + e));
    assert Concat([a, b, c, d, e]) == a + (b + (c + (d + e)));
  }

  /** `sep.join(xs)` */
  function Join(xs: seq<string>, sep: string): string {
    if |xs| == 0 then ""
    else if |xs| == 1 then xs[0]
    else xs[0] + sep + Join(xs[1..], sep)
  }

  /** Joining two non-empty lists puts every element of the first, then the
      separator, then every element of the second. */
  lemma {:induction false} JoinAppend(xs: seq<string>, ys: seq<string>, sep: string)
    requires |xs| > 0 && |ys| > 0
    ensures Join(xs + ys, sep) == Join(xs, sep) + sep + Join(ys, sep)
  {
    if |xs| == 1 {
      assert (xs + ys)[1..] == ys;
    } else {
      assert (xs + ys)[1..] == xs[1..] + ys;
      JoinAppend(xs[1..], ys, sep);
    }
  }

  /** `s.split(c)` for a single character `c`: always at least one piece. */
  function Split(s: string, c: char): (r: seq<string>)
    ensures |r| > 0
  {
    if s == [] then [""]
    else
      var rest := Split(s[1..], c);
      if s[0] == c then [""] + rest else [[s[0]] + rest[0]] + rest[1..]
  }

  /** Splitting a piece that holds no `c` gives it back whole. */
  lemma {:induction false} SplitPlain(x: string, c: char)
    requires c !in x
    ensures Split(x, c) == [x]
  {
    if x != [] {
      SplitPlain(x[1..], c);
      assert [x[0]] + x[1..] == x;
    }
  }

  /** Splitting `x + [c] + tail` where `x` holds no `c`. */
  lemma {:induction false} SplitHead(x: string, c: char, tail: string)
    requires c !in x
    ensures Split(x + [c] + tail, c) == [x] + Split(tail, c)
  {
    if x == [] {
      assert ([c] + tail)[1..] == tail;
    } else {
      assert (x + [c] + tail)[1..] == x[1..] + [c] + tail;
      SplitHead(x[1..], c, tail);
      assert [x[0]] + x[1..] == x;
    }
  }

  /** Splitting undoes joining when no piece contains the separator. */
  lemma {:induction false} SplitJoin(xs: seq<string>, c: char)
    requires |xs| > 0
    requires forall i :: 0 <= i < |xs| ==> c !in xs[i]
    ensures Split(Join(xs, [c]), c) == xs
  {
    if |xs| == 1 {
      SplitPlain(xs[0], c);
    } else {
      SplitJoin(xs[1..], c);
      SplitHead(xs[0], c, Join(xs[1..], [c]));
      assert [xs[0]] + xs[1..] == xs;
    }
  }

  predicate IsDigit(c: char) { '0' <= c <= '9' }

  /** Python's `s.isdigit()` restricted to ASCII digits: false on "". */
  predicate AllDigits(s: string) {
    |s| > 0 && forall k :: 0 <= k < |s| ==> IsDigit(s[k])
  }

  /** Python's `int(s)` on a string of ASCII digits. */
  function DigitsValue(s: string): (n: nat)
    requires forall k :: 0 <= k < |s| ==> IsDigit(s[k])
  {
    if s == [] then 0
    else
      assert IsDigit(s[|s| - 1]);
      10 * DigitsValue(s[..|s| - 1]) + (s[|s| - 1] as int - '0' as int)
  }

  /** Decimal rendering of a natural number, the way Python's `str` writes it. */
  function ShowNat(n: nat): (s: string)
    ensures AllDigits(s)
    ensures s[0] == '0' ==> n == 0
  {
    var d := [(('0' as int) + n % 10) as char];
    if n < 10 then d else ShowNat(n / 10) + d
  }

  /** Reading back the digits of a number gives the number. */
  lemma {:induction false} ShowNatRoundTrip(n: nat)
    ensures DigitsValue(ShowNat(n)) == n
  {
    var s := ShowNat(n);
    if n >= 10 {
      ShowNatRoundTrip(n / 10);
      assert s[..|s| - 1] == ShowNat(n / 10);
    }
  }

  /** A run of zeros reads as 0. */
  lemma {:induction false} ZerosValue(z: string)
    requires forall k :: 0 <= k < |z| ==> z[k] == '0'
    ensures DigitsValue(z) == 0
  {
    if z != [] {
      ZerosValue(z[..|z| - 1]);
    }
  }

  /** Leading zeros do not change the value of a digit string. */
  lemma {:induction false} LeadingZerosIgnored(z: string, d: string)
    requires forall k :: 0 <= k < |z| ==> z[k] == '0'
    requires forall k :: 0 <= k < |d| ==> IsDigit(d[k])
    ensures DigitsValue(z + d) == DigitsValue(d)
  {
    if d == [] {
      assert z + d == z;
      ZerosValue(z);
    } else {
      var init := d[..|d| - 1];
      assert (z + d)[..|z + d| - 1] == z + init;
      LeadingZerosIgnored(z, init);
    }
  }

  /** ASCII lower-casing. Python's `lower()` also maps non-ASCII letters, but
      none of them lower-cases to a string made of the letters of "true" or
      "false", so comparisons with those words agree with Python's. */
  function AsciiLower(s: string): (r: string)
    ensures |r| == |s|
    ensures forall k :: 0 <= k < |s| ==> r[k] == (if 'A' <= s[k] <= 'Z' then (s[k] as int + 32) as char else s[k])
  {
    if s == [] then []
    else
      var c := s[0];
      [if 'A' <= c <= 'Z' then (c as int + 32) as char else c] + AsciiLower(s[1..])
  }
}

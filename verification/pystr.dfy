/** The handful of Python `str` operations the bot's decisions are built on:
    `strip()`, `split(sep)`, `sep.join(...)`, `in`, `startswith`, `endswith`,
    `repr` of a list of strings and `str` of an integer. */
module PyStr {

  /** The characters `str.isspace()` accepts, which is what `strip()` with no
      argument removes from both ends. */
  predicate IsSpace(c: char) {
    || c == ' '
    || '\U{9}' <= c <= '\U{d}'
    || '\U{1c}' <= c <= '\U{1f}'
    || c == '\U{85}' || c == '\U{a0}' || c == '\U{1680}'
    || '\U{2000}' <= c <= '\U{200a}'
    || c == '\U{2028}' || c == '\U{2029}' || c == '\U{202f}'
    || c == '\U{205f}' || c == '\U{3000}'
  }

  predicate AllSpace(s: string) {
    forall i :: 0 <= i < |s| ==> IsSpace(s[i])
  }

  /** `s.lstrip()`: the suffix left after every leading space is dropped. */
  function LStrip(s: string): (r: string)
    ensures |r| <= |s|
  {
    if |s| > 0 && IsSpace(s[0]) then LStrip(s[1..]) else s
  }

  /** `s.rstrip()`: the prefix left after every trailing space is dropped. */
  function RStrip(s: string): (r: string)
    ensures |r| <= |s|
  {
    if |s| > 0 && IsSpace(s[|s| - 1]) then RStrip(s[..|s| - 1]) else s
  }

  /** `lstrip()` cuts a prefix of spaces only, and no more than those. */
  lemma {:induction false} LStripSpec(s: string)
    ensures var r := LStrip(s);
      && r == s[|s| - |r|..] && AllSpace(s[..|s| - |r|])
      && (|r| > 0 ==> !IsSpace(r[0]))
  {
    if |s| > 0 && IsSpace(s[0]) {
      LStripSpec(s[1..]);
      var r := LStrip(s);
      assert s[1..][|s[1..]| - |r|..] == s[|s| - |r|..];
      assert s[..|s| - |r|] == [s[0]] + s[1..][..|s[1..]| - |r|];
    }
  }

  /** `rstrip()` cuts a suffix of spaces only, and no more than those. */
  lemma {:induction false} RStripSpec(s: string)
    ensures var r := RStrip(s);
      && r == s[..|r|] && AllSpace(s[|r|..])
      && (|r| > 0 ==> !IsSpace(r[|r| - 1]))
  {
    if |s| > 0 && IsSpace(s[|s| - 1]) {
      var t := s[..|s| - 1];
      RStripSpec(t);
      var r := RStrip(s);
      assert t[..|r|] == s[..|r|];
      assert forall i :: |r| <= i < |s| - 1 ==> s[i] == t[i];
      assert forall i :: 0 <= i < |s[|r|..]| ==> s[|r|..][i] == s[|r| + i];
    }
  }

  /** `s.strip()`. */
  function Strip(s: string): string {
    RStrip(LStrip(s))
  }

  /** What `strip()` promises: the result is a slice of `s` with only spaces
      cut off either end, and it neither starts nor ends with a space. */
  lemma StripIsTrimmedSlice(s: string)
    ensures var r, lo := Strip(s), |s| - |LStrip(s)|;
      && lo + |r| <= |s|
      && r == s[lo..lo + |r|]
      && AllSpace(s[..lo]) && AllSpace(s[lo + |r|..])
      && (|r| > 0 ==> !IsSpace(r[0]) && !IsSpace(r[|r| - 1]))
  {
    var l := LStrip(s);
    var r := RStrip(l);
    var lo := |s| - |l|;
    LStripSpec(s);
    RStripSpec(l);
    assert s[lo..][..|r|] == s[lo..lo + |r|];
    assert l[|r|..] == s[lo + |r|..];
  }

  /** `strip()` yields "" exactly for a string made of spaces only. */
  lemma StripEmptyIffAllSpace(s: string)
    ensures Strip(s) == "" <==> AllSpace(s)
  {
    StripIsTrimmedSlice(s);
    var lo := |s| - |LStrip(s)|;
    if Strip(s) == "" {
      forall i | 0 <= i < |s|
        ensures IsSpace(s[i])
      {
        if i < lo {
          assert s[i] == s[..lo][i];
        } else {
          assert s[i] == s[lo..][i - lo];
        }
      }
    } else {
      assert !IsSpace(s[lo]);
    }
  }

  /** A string with no space at either end is left alone, so `strip()` is
      idempotent. */
  lemma StripFixesTrimmed(s: string)
    requires |s| > 0 ==> !IsSpace(s[0]) && !IsSpace(s[|s| - 1])
    ensures Strip(s) == s
  {
  }

  lemma StripIdempotent(s: string)
    ensures Strip(Strip(s)) == Strip(s)
  {
    StripIsTrimmedSlice(s);
    StripFixesTrimmed(Strip(s));
  }

  /** `sep.join(fields)` for a one-character separator. */
  function Join(fields: seq<string>, sep: char): string {
    if |fields| == 0 then ""
    else if |fields| == 1 then fields[0]
    else fields[0] + [sep] + Join(fields[1..], sep)
  }

  /** `s.split(sep)` with an explicit one-character separator: it splits at
      every occurrence and keeps empty fields, so it never returns an empty
      list.  Joining the fields again gives back `s`. */
  function Split(s: string, sep: char): (r: seq<string>)
    ensures |r| >= 1
    decreases |s|
  {
    if |s| == 0 then [""]
    else
      var rest := Split(s[1..], sep);
      if s[0] == sep then [""] + rest
      else [[s[0]] + rest[0]] + rest[1..]
  }

  /** No field holds the separator, and joining the fields again gives back
      `s`. */
  lemma {:induction false} SplitJoin(s: string, sep: char)
    ensures forall i :: 0 <= i < |Split(s, sep)| ==> sep !in Split(s, sep)[i]
    ensures Join(Split(s, sep), sep) == s
    decreases |s|
  {
    if |s| > 0 {
      var rest := Split(s[1..], sep);
      SplitJoin(s[1..], sep);
      if s[0] == sep {
        assert ([""] + rest)[1..] == rest;
      } else {
        assert |rest| > 1 ==> Join(rest, sep) == rest[0] + [sep] + Join(rest[1..], sep);
        assert ([[s[0]] + rest[0]] + rest[1..])[1..] == rest[1..];
      }
    }
  }

  lemma {:induction false} SplitNoSep(s: string, sep: char)
    requires sep !in s
    ensures Split(s, sep) == [s]
    decreases |s|
  {
    if |s| > 0 {
      assert s[0] != sep && sep !in s[1..];
      SplitNoSep(s[1..], sep);
      assert [s[0]] + s[1..] == s;
    }
  }

  lemma {:induction false} SplitAtSep(f: string, sep: char, t: string)
    requires sep !in f
    ensures Split(f + [sep] + t, sep) == [f] + Split(t, sep)
    decreases |f|
  {
    var s := f + [sep] + t;
    if |f| == 0 {
      assert s[1..] == t;
    } else {
      assert s[1..] == f[1..] + [sep] + t;
      assert sep !in f[1..];
      SplitAtSep(f[1..], sep, t);
      assert [f[0]] + f[1..] == f;
    }
  }

  /** The other half of the round trip: splitting a join of separator-free
      fields gives back exactly those fields. */
  lemma {:induction false} SplitOfJoin(fields: seq<string>, sep: char)
    requires |fields| >= 1
    requires forall i :: 0 <= i < |fields| ==> sep !in fields[i]
    ensures Split(Join(fields, sep), sep) == fields
    decreases |fields|
  {
    if |fields| == 1 {
      SplitNoSep(fields[0], sep);
    } else {
      SplitOfJoin(fields[1..], sep);
      SplitAtSep(fields[0], sep, Join(fields[1..], sep));
      assert [fields[0]] + fields[1..] == fields;
    }
  }

  /** `s.split(sep)` has a second field exactly when `sep` occurs in `s`. */
  lemma {:induction false} SplitHasSecondIff(s: string, sep: char)
    ensures |Split(s, sep)| >= 2 <==> sep in s
    decreases |s|
  {
    if sep !in s {
      SplitNoSep(s, sep);
    } else if s[0] != sep {
      assert sep in s[1..];
      SplitHasSecondIff(s[1..], sep);
    }
  }

  /** The first field of `s.split(sep)` is the longest prefix of `s` without
      `sep`. */
  lemma SplitHead(s: string, sep: char)
    ensures var h := Split(s, sep)[0];
      |h| <= |s| && h == s[..|h|] && sep !in h && (|h| < |s| ==> s[|h|] == sep)
  {
    var fs := Split(s, sep);
    SplitJoin(s, sep);
    if |fs| == 1 {
    } else {
      assert Join(fs, sep) == fs[0] + [sep] + Join(fs[1..], sep);
    }
  }

  /** Taking the first field again changes nothing. */
  lemma SplitHeadStable(s: string, sep: char)
    ensures Split(Split(s, sep)[0], sep) == [Split(s, sep)[0]]
  {
    SplitJoin(s, sep);
    SplitNoSep(Split(s, sep)[0], sep);
  }

  predicate StartsWith(s: string, prefix: string) {
    |prefix| <= |s| && s[..|prefix|] == prefix
  }

  predicate EndsWith(s: string, suffix: string) {
    |suffix| <= |s| && s[|s| - |suffix|..] == suffix
  }

  /** Python's substring test `t in s`. */
  predicate Contains(s: string, t: string)
    decreases |s|
  {
    StartsWith(s, t) || (|s| > 0 && Contains(s[1..], t))
  }

  /** `t` occurs in `s` starting at index `i`. */
  predicate OccursAt(s: string, t: string, i: int) {
    0 <= i <= |s| - |t| && s[i..i + |t|] == t
  }

  /** The recursive test agrees with "occurs at some index". */
  lemma {:induction false} ContainsIff(s: string, t: string)
    ensures Contains(s, t) <==> exists i :: OccursAt(s, t, i)
    decreases |s|
  {
    if |s| > 0 {
      ContainsIff(s[1..], t);
      if Contains(s[1..], t) {
        var i :| OccursAt(s[1..], t, i);
        assert s[1..][i..i + |t|] == s[i + 1..i + 1 + |t|];
        assert OccursAt(s, t, i + 1);
      }
      if StartsWith(s, t) {
        assert OccursAt(s, t, 0);
      }
      if exists i :: OccursAt(s, t, i) {
        var i :| OccursAt(s, t, i);
        if i > 0 {
          assert s[1..][i - 1..i - 1 + |t|] == s[i..i + |t|];
          assert OccursAt(s[1..], t, i - 1);
        } else {
          assert StartsWith(s, t);
        }
      }
    } else {
      if StartsWith(s, t) {
        assert OccursAt(s, t, 0);
      }
      if exists i :: OccursAt(s, t, i) {
        assert StartsWith(s, t);
      }
    }
  }

  // ---------------------------------------------------------------------
  // repr() of a str and of a list of str, as used by an f-string `{cmd}`.

  function HexDigit(n: nat): char
    requires n < 16
  {
    if n < 10 then '0' + n as char else 'a' + (n - 10) as char
  }

  /** Python's `repr` of one character inside a string literal quoted with
      `quote`.  ASCII is escaped exactly as CPython does; characters beyond
      ASCII are taken to be printable and kept as they are. */
  function ReprChar(c: char, quote: char): string {
    if c == quote || c == '\\' then ['\\', c]
    else if c == '\t' then "\\t"
    else if c == '\n' then "\\n"
    else if c == '\r' then "\\r"
    else if c < ' ' || c == '\U{7f}' then
      ['\\', 'x', HexDigit(c as nat / 16), HexDigit(c as nat % 16)]
    else [c]
  }

  function ReprBody(s: string, quote: char): string {
    if |s| == 0 then "" else ReprChar(s[0], quote) + ReprBody(s[1..], quote)
  }

  /** `repr(s)`: single quotes unless `s` holds a single quote and no double
      quote. */
  function Repr(s: string): (r: string)
    ensures |r| >= 2 && r[0] == r[|r| - 1] && (r[0] == '\'' || r[0] == '"')
  {
    var quote := if '\'' in s && '"' !in s then '"' else '\'';
    [quote] + ReprBody(s, quote) + [quote]
  }

  /** No character of `s` needs an escape. */
  predicate Plain(s: string) {
    forall i :: 0 <= i < |s| ==> ' ' <= s[i] && s[i] != '\U{7f}' && s[i] != '\'' && s[i] != '\\'
  }

  lemma {:induction false} ReprBodyPlain(s: string)
    requires Plain(s)
    ensures ReprBody(s, '\'') == s
    decreases |s|
  {
    if |s| > 0 {
      assert Plain(s[1..]) by {
        forall i | 0 <= i < |s[1..]| ensures ' ' <= s[1..][i] {
          assert s[1..][i] == s[i + 1];
        }
      }
      ReprBodyPlain(s[1..]);
      assert [s[0]] + s[1..] == s;
    }
  }

  /** A plain string's repr is the string in single quotes. */
  lemma ReprPlain(s: string)
    requires Plain(s)
    ensures Repr(s) == "'" + s + "'"
  {
    assert '\'' !in s by {
      forall i | 0 <= i < |s| ensures s[i] != '\'' { }
    }
    ReprBodyPlain(s);
  }

  function ReprItems(xs: seq<string>): string {
    if |xs| == 0 then ""
    else if |xs| == 1 then Repr(xs[0])
    else Repr(xs[0]) + ", " + ReprItems(xs[1..])
  }

  /** `repr(xs)` for a list of strings: `['a', 'b']`. */
  function ListRepr(xs: seq<string>): (r: string)
    ensures |r| >= 2 && r[0] == '[' && r[|r| - 1] == ']'
  {
    "[" + ReprItems(xs) + "]"
  }

  // ---------------------------------------------------------------------
  // str() of an int.

  function DigitChar(d: nat): char
    requires d < 10
  {
    '0' + d as char
  }

  predicate IsDigit(c: char) {
    '0' <= c <= '9'
  }

  /** Decimal digits of a natural number, most significant first. */
  function NatToStr(n: nat): (r: string)
    ensures |r| > 0 && forall i :: 0 <= i < |r| ==> IsDigit(r[i])
  {
    if n < 10 then [DigitChar(n)] else NatToStr(n / 10) + [DigitChar(n % 10)]
  }

  /** `str(n)`. */
  function IntToStr(n: int): string {
    if n < 0 then "-" + NatToStr(-n) else NatToStr(n)
  }

  /** The number a string of decimal digits denotes. */
  function DecimalValue(s: string): nat
    requires forall i :: 0 <= i < |s| ==> IsDigit(s[i])
  {
    if |s| == 0 then 0
    else
      assert IsDigit(s[|s| - 1]);
      10 * DecimalValue(s[..|s| - 1]) + (s[|s| - 1] as int - '0' as int)
  }

  /** Reading back the digits `str` writes gives the number again. */
  lemma {:induction false} NatToStrRoundTrip(n: nat)
    ensures DecimalValue(NatToStr(n)) == n
  {
    if n >= 10 {
      NatToStrRoundTrip(n / 10);
      var s := NatToStr(n);
      assert s[..|s| - 1] == NatToStr(n / 10);
    }
  }
}

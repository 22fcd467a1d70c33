/** The Python `str` operations the services apply to user input and to
    command output: `strip`, `upper`/`lower`, `split`, `in`, `startswith`,
    `int(...)`, the `{n:03d}` format and `shlex.quote`. */
module Text {
  import opened Values

  /** `str.isspace()` for one character: the characters `str.strip()`
      removes when called without arguments. */
  predicate IsSpace(c: char)
  {
    c == ' ' || ('\t' <= c <= '\r') || ('\U{1C}' <= c <= '\U{1F}') ||
    c == '\U{85}' || c == '\U{A0}' || c == '\U{1680}' ||
    ('\U{2000}' <= c <= '\U{200A}') || c == '\U{2028}' || c == '\U{2029}' ||
    c == '\U{202F}' || c == '\U{205F}' || c == '\U{3000}'
  }

  function LStrip(s: string): string
  {
    if |s| > 0 && IsSpace(s[0]) then LStrip(s[1..]) else s
  }

  function RStrip(s: string): string
  {
    if |s| > 0 && IsSpace(s[|s| - 1]) then RStrip(s[..|s| - 1]) else s
  }

  function Strip(s: string): string
  {
    RStrip(LStrip(s))
  }

  /** A string `strip()` leaves unchanged. */
  predicate IsStripped(s: string)
  {
    |s| == 0 || (!IsSpace(s[0]) && !IsSpace(s[|s| - 1]))
  }

  lemma {:induction false} LStripShape(s: string)
    ensures |LStrip(s)| <= |s| && LStrip(s) == s[|s| - |LStrip(s)|..]
    ensures |LStrip(s)| > 0 ==> !IsSpace(LStrip(s)[0])
    ensures forall i :: 0 <= i < |s| - |LStrip(s)| ==> IsSpace(s[i])
    decreases |s|
  {
    if |s| > 0 && IsSpace(s[0]) {
      LStripShape(s[1..]);
    }
  }

  lemma {:induction false} RStripShape(s: string)
    ensures |RStrip(s)| <= |s| && RStrip(s) == s[..|RStrip(s)|]
    ensures |RStrip(s)| > 0 ==> !IsSpace(RStrip(s)[|RStrip(s)| - 1])
    ensures forall i :: |RStrip(s)| <= i < |s| ==> IsSpace(s[i])
    decreases |s|
  {
    if |s| > 0 && IsSpace(s[|s| - 1]) {
      RStripShape(s[..|s| - 1]);
    }
  }

  /** `strip()` removes exactly the surrounding whitespace: what remains is a
      contiguous piece of the input with no whitespace at either end, and
      everything cut away is whitespace. */
  lemma StripSpec(s: string)
    ensures IsStripped(Strip(s))
    ensures exists i :: OccursAt(s, Strip(s), i)
    ensures Strip(s) == "" <==> forall i :: 0 <= i < |s| ==> IsSpace(s[i])
  {
    LStripShape(s);
    var l := LStrip(s);
    RStripShape(l);
    var k := |s| - |l|;
    assert OccursAt(s, Strip(s), k);
    if Strip(s) == "" {
      assert |l| == 0;
    } else {
      assert !IsSpace(s[k]);
    }
  }

  /** A string without surrounding whitespace is its own `strip()`. */
  lemma StrippedFixpoint(s: string)
    requires IsStripped(s)
    ensures Strip(s) == s
  {
  }

  /** `strip()` is idempotent. */
  lemma StripIdempotent(s: string)
    ensures Strip(Strip(s)) == Strip(s)
  {
    StripSpec(s);
    StrippedFixpoint(Strip(s));
  }

  /** `str.upper()` / `str.lower()` on ASCII letters; every other character
      is left as it is. */
  function UpperChar(c: char): char
  {
    if 'a' <= c <= 'z' then (c as int - 32) as char else c
  }

  function LowerChar(c: char): char
  {
    if 'A' <= c <= 'Z' then (c as int + 32) as char else c
  }

  function Upper(s: string): string
  {
    seq(|s|, i requires 0 <= i < |s| => UpperChar(s[i]))
  }

  function Lower(s: string): string
  {
    seq(|s|, i requires 0 <= i < |s| => LowerChar(s[i]))
  }

  /** `upper()` keeps whitespace where it is, so stripping and upper-casing
      commute and an upper-cased stripped string is empty only if it was. */
  lemma UpperStrip(s: string)
    ensures Upper(Strip(s)) == "" <==> Strip(s) == ""
    ensures IsStripped(Upper(Strip(s)))
  {
    StripSpec(s);
  }

  /** The result of `lower()` holds no upper-case ASCII letter. */
  lemma LowerHasNoCapitals(s: string)
    ensures forall i :: 0 <= i < |Lower(s)| ==> !('A' <= Lower(s)[i] <= 'Z')
  {
  }

  /** `sub` occurs in `s` starting at index `i`. */
  predicate OccursAt(s: string, sub: string, i: int)
  {
    0 <= i <= |s| - |sub| && s[i..i + |sub|] == sub
  }

  /** `sub in s` */
  predicate Contains(s: string, sub: string)
  {
    exists i :: 0 <= i <= |s| - |sub| && OccursAt(s, sub, i)
  }

  predicate StartsWith(s: string, prefix: string)
  {
    |prefix| <= |s| && s[..|prefix|] == prefix
  }

  predicate EndsWith(s: string, suffix: string)
  {
    |suffix| <= |s| && s[|s| - |suffix|..] == suffix
  }

  /** Index of the first occurrence of `c`, as `str.find` for one character. */
  function Find(s: string, c: char): (r: Option<nat>)
    ensures r.Some? ==> r.value < |s| && s[r.value] == c && c !in s[..r.value]
    ensures r.None? <==> c !in s
  {
    if |s| == 0 then None
    else if s[0] == c then Some(0)
    else match Find(s[1..], c)
      case None => None
      case Some(i) => assert s[1..][..i] == s[1..i + 1]; Some(i + 1)
  }

  /** `s.split(sep)` for a one-character separator. */
  function Split(s: string, sep: char): seq<string>
    decreases |s|
  {
    match Find(s, sep)
    case None => [s]
    case Some(i) => [s[..i]] + Split(s[i + 1..], sep)
  }

  /** `sep.join(pieces)` */
  function Join(pieces: seq<string>, sep: char): string
  {
    if |pieces| == 0 then ""
    else if |pieces| == 1 then pieces[0]
    else pieces[0] + [sep] + Join(pieces[1..], sep)
  }

  /** `split` cuts the string at every separator and nowhere else: joining
      the pieces back gives the input, and no piece holds a separator. */
  lemma {:induction false} SplitJoin(s: string, sep: char)
    ensures |Split(s, sep)| >= 1
    ensures Join(Split(s, sep), sep) == s
    ensures forall j :: 0 <= j < |Split(s, sep)| ==> sep !in Split(s, sep)[j]
    decreases |s|
  {
    match Find(s, sep)
    case None =>
    case Some(i) =>
      var rest := s[i + 1..];
      var tail := Split(rest, sep);
      SplitJoin(rest, sep);
      var pieces := Split(s, sep);
      assert pieces == [s[..i]] + tail;
      assert Join(pieces, sep) == s by {
        assert pieces[1..] == tail;
        assert Join(pieces, sep) == s[..i] + [sep] + Join(tail, sep);
        assert s == s[..i] + [sep] + rest;
      }
      forall j | 0 <= j < |pieces| ensures sep !in pieces[j] {
        if j > 0 {
          assert pieces[j] == tail[j - 1];
        }
      }
  }

  /** Splitting a join of separator-free pieces gives the pieces back. */
  lemma {:induction false} SplitOfJoin(pieces: seq<string>, sep: char)
    requires |pieces| >= 1
    requires forall j :: 0 <= j < |pieces| ==> sep !in pieces[j]
    ensures Split(Join(pieces, sep), sep) == pieces
    decreases |pieces|
  {
    if |pieces| > 1 {
      var p := pieces[0];
      var rest := Join(pieces[1..], sep);
      var s := Join(pieces, sep);
      assert s == p + [sep] + rest;
      assert Find(s, sep) == Some(|p|) by {
        assert s[..|p|] == p;
        FindFirst(s, sep, |p|);
      }
      assert s[|p| + 1..] == rest;
      assert Split(rest, sep) == pieces[1..] by {
        SplitOfJoin(pieces[1..], sep);
      }
      assert pieces == [p] + pieces[1..];
    }
  }

  /** `s.split(sep, 1)` when `sep in s`: the text before and after the first
      separator. */
  function SplitOnce(s: string, sep: char): (r: Option<(string, string)>)
    ensures r.None? <==> sep !in s
    ensures r.Some? ==> s == r.value.0 + [sep] + r.value.1 && sep !in r.value.0
  {
    match Find(s, sep)
    case None => None
    case Some(i) => Some((s[..i], s[i + 1..]))
  }

  // ---------------------------------------------------------------------
  // Integers as text

  predicate IsDigit(c: char)
  {
    '0' <= c <= '9'
  }

  /** The digit characters of a base-10 literal for `int()`: digits, with
      single underscores allowed between two digits. */
  predicate DigitGroups(s: string)
  {
    |s| > 0 && IsDigit(s[0]) && IsDigit(s[|s| - 1]) &&
    forall i :: 0 <= i < |s| ==>
      IsDigit(s[i]) || (s[i] == '_' && i + 1 < |s| && IsDigit(s[i + 1]))
  }

  function DigitsValue(s: string): nat
  {
    if |s| == 0 then 0
    else if IsDigit(s[|s| - 1]) then
      10 * DigitsValue(s[..|s| - 1]) + (s[|s| - 1] as int - '0' as int)
    else DigitsValue(s[..|s| - 1])
  }

  /** `int(s)` for a string: surrounding whitespace, an optional sign, then
      digit groups; anything else is a `ValueError`, here `None`. */
  function ParseInt(s: string): Option<int>
  {
    var t := Strip(s);
    if |t| > 0 && (t[0] == '+' || t[0] == '-') then
      if DigitGroups(t[1..]) then
        var magnitude: int := DigitsValue(t[1..]);
        Some(if t[0] == '-' then -magnitude else magnitude)
      else None
    else if DigitGroups(t) then Some(DigitsValue(t))
    else None
  }

  function DigitChar(d: nat): char
    requires d < 10
  {
    ('0' as int + d) as char
  }

  /** `str(n)` for `n >= 0`. */
  function Decimal(n: nat): string
  {
    if n < 10 then [DigitChar(n)] else Decimal(n / 10) + [DigitChar(n % 10)]
  }

  function Zeros(k: nat): string
  {
    if k == 0 then "" else "0" + Zeros(k - 1)
  }

  function ZeroPad(s: string, width: nat): string
  {
    if |s| >= width then s else Zeros(width - |s|) + s
  }

  /** `f"{n:03d}"`: at least three characters, zero-filled after the sign. */
  function Format03(n: int): string
  {
    if n >= 0 then ZeroPad(Decimal(n), 3) else "-" + ZeroPad(Decimal(-n), 2)
  }

  lemma {:induction false} DecimalDigits(n: nat)
    ensures |Decimal(n)| > 0
    ensures forall i :: 0 <= i < |Decimal(n)| ==> IsDigit(Decimal(n)[i])
    ensures DigitsValue(Decimal(n)) == n
    decreases n
  {
    if n >= 10 {
      DecimalDigits(n / 10);
      var s := Decimal(n);
      assert s[..|s| - 1] == Decimal(n / 10);
    }
  }

  lemma {:induction false} ZerosValue(k: nat, s: string)
    requires forall i :: 0 <= i < |s| ==> IsDigit(s[i])
    ensures forall i :: 0 <= i < |Zeros(k) + s| ==> IsDigit((Zeros(k) + s)[i])
    ensures DigitsValue(Zeros(k) + s) == DigitsValue(s)
    decreases k + |s|
  {
    var z := Zeros(k) + s;
    if k > 0 {
      assert Zeros(k) + s == "0" + (Zeros(k - 1) + s);
      ZerosValue(k - 1, s);
    }
    if |s| == 0 {
      if k > 0 {
        assert z[..|z| - 1] == Zeros(k - 1) + "" by {
          assert Zeros(k) == Zeros(k - 1) + "0" by { ZerosSnoc(k); }
        }
        ZerosValue(k - 1, "");
      }
    } else {
      assert z[..|z| - 1] == Zeros(k) + s[..|s| - 1];
      ZerosValue(k, s[..|s| - 1]);
    }
  }

  lemma {:induction false} ZerosSnoc(k: nat)
    requires k > 0
    ensures Zeros(k) == Zeros(k - 1) + "0"
    decreases k
  {
    if k > 1 {
      ZerosSnoc(k - 1);
    }
  }

  lemma PaddedDecimal(m: nat, w: nat)
    ensures DigitGroups(ZeroPad(Decimal(m), w))
    ensures forall i :: 0 <= i < |ZeroPad(Decimal(m), w)| ==> IsDigit(ZeroPad(Decimal(m), w)[i])
    ensures DigitsValue(ZeroPad(Decimal(m), w)) == m
  {
    DecimalDigits(m);
    if |Decimal(m)| < w {
      ZerosValue(w - |Decimal(m)|, Decimal(m));
    }
  }

  /** Reading back a zero-padded `f"{n:03d}"` gives `n`: the counter-based
      names are decoded by `int()` to the counter they were made from. */
  lemma Format03RoundTrip(n: int)
    ensures ParseInt(Format03(n)) == Some(n)
  {
    var f := Format03(n);
    if n >= 0 {
      PaddedDecimal(n, 3);
      StrippedFixpoint(f);
      assert IsDigit(f[0]);
    } else {
      var d := ZeroPad(Decimal(-n), 2);
      PaddedDecimal(-n, 2);
      assert f == "-" + d;
      assert IsStripped(f);
      StrippedFixpoint(f);
      assert f[1..] == d;
    }
  }

  /** `int(str(n))` is `n` for a natural number. */
  lemma DecimalRoundTrip(n: nat)
    ensures ParseInt(Decimal(n)) == Some(n)
  {
    PaddedDecimal(n, 0);
    var d := Decimal(n);
    assert ZeroPad(d, 0) == d;
    assert IsDigit(d[0]) && IsDigit(d[|d| - 1]);
    StrippedFixpoint(d);
  }

  /** Different counters always give different `f"{n:03d}"` texts. */
  lemma Format03Injective(a: int, b: int)
    requires Format03(a) == Format03(b)
    ensures a == b
  {
    Format03RoundTrip(a);
    Format03RoundTrip(b);
  }

  // ---------------------------------------------------------------------
  // Shell quoting

  /** The characters `shlex.quote` accepts without quoting. */
  predicate ShellSafe(c: char)
  {
    ('a' <= c <= 'z') || ('A' <= c <= 'Z') || IsDigit(c) ||
    c == '_' || c == '@' || c == '%' || c == '+' || c == '=' || c == ':' ||
    c == ',' || c == '.' || c == '/' || c == '-'
  }

  function EscapeQuotes(s: string): string
  {
    if |s| == 0 then ""
    else (if s[0] == '\'' then "'\"'\"'" else [s[0]]) + EscapeQuotes(s[1..])
  }

  /** `shlex.quote(s)` */
  function ShellQuote(s: string): string
  {
    if s == "" then "''"
    else if forall i :: 0 <= i < |s| ==> ShellSafe(s[i]) then s
    else "'" + EscapeQuotes(s) + "'"
  }

  lemma {:induction false} FindFirst(s: string, c: char, k: nat)
    requires k < |s| && s[k] == c && c !in s[..k]
    ensures Find(s, c) == Some(k)
    decreases k
  {
    if k > 0 {
      assert s[1..][..k - 1] == s[1..k];
      FindFirst(s[1..], c, k - 1);
    }
  }

  /** Where the shell's reader stands: outside quotes, or inside single or
      double quotes. */
  datatype Quoting = Bare | InSingle | InDouble

  /** The words read so far, with the word being read, if one has started. */
  function Flush(acc: seq<string>, cur: Option<string>): seq<string>
  {
    if cur.Some? then acc + [cur.value] else acc
  }

  function Started(cur: Option<string>): string
  {
    if cur.Some? then cur.value else ""
  }

  function Scan(s: string, q: Quoting, cur: Option<string>, acc: seq<string>): Option<seq<string>>
    decreases |s|
  {
    if |s| == 0 then (if q == Bare then Some(Flush(acc, cur)) else None)
    else
      var c, w := s[0], Started(cur);
      match q
      case Bare =>
        if c == ' ' then Scan(s[1..], Bare, None, Flush(acc, cur))
        else if c == '\'' then Scan(s[1..], InSingle, Some(w), acc)
        else if c == '"' then Scan(s[1..], InDouble, Some(w), acc)
        else Scan(s[1..], Bare, Some(w + [c]), acc)
      case InSingle =>
        if c == '\'' then Scan(s[1..], Bare, Some(w), acc) else Scan(s[1..], InSingle, Some(w + [c]), acc)
      case InDouble =>
        if c == '"' then Scan(s[1..], Bare, Some(w), acc) else Scan(s[1..], InDouble, Some(w + [c]), acc)
  }

  /** The words a POSIX shell reads from a command line, for the syntax the
      quoting here produces: blanks separate words, and single and double
      quotes group text into a word without being part of it. Backslashes,
      expansions and operators are not read; an unclosed quote is an
      error. */
  function ShellWords(line: string): Option<seq<string>>
  {
    Scan(line, Bare, None, [])
  }

  /** A character that neither ends a word nor opens a quote. */
  predicate WordChar(c: char)
  {
    c != ' ' && c != '\'' && c != '"'
  }

  lemma {:induction false} ScanBareRun(x: string, rest: string, cur: Option<string>, acc: seq<string>)
    requires forall i :: 0 <= i < |x| ==> WordChar(x[i])
    requires |x| > 0 || cur.Some?
    ensures Scan(x + rest, Bare, cur, acc) == Scan(rest, Bare, Some(Started(cur) + x), acc)
    decreases |x|
  {
    if |x| == 0 {
      assert x + rest == rest;
      assert Started(cur) + x == cur.value;
    } else {
      assert (x + rest)[0] == x[0];
      assert (x + rest)[1..] == x[1..] + rest;
      ScanBareRun(x[1..], rest, Some(Started(cur) + [x[0]]), acc);
      assert Started(cur) + [x[0]] + x[1..] == Started(cur) + x;
    }
  }

  lemma ScanBlank(rest: string, w: string, acc: seq<string>)
    ensures Scan(" " + rest, Bare, Some(w), acc) == Scan(rest, Bare, None, acc + [w])
  {
    assert (" " + rest)[1..] == rest;
  }

  /** A bare word and the blank after it make one word. */
  lemma ScanWord(x: string, rest: string, acc: seq<string>)
    requires |x| > 0 && forall i :: 0 <= i < |x| ==> WordChar(x[i])
    ensures Scan(x + " " + rest, Bare, None, acc) == Scan(rest, Bare, None, acc + [x])
  {
    assert x + " " + rest == x + (" " + rest);
    ScanBareRun(x, " " + rest, None, acc);
    assert Started(None) + x == x;
    ScanBlank(rest, x, acc);
  }

  lemma {:induction false} ScanSingleRun(x: string, rest: string, w: string, acc: seq<string>)
    requires '\'' !in x
    ensures Scan(x + rest, InSingle, Some(w), acc) == Scan(rest, InSingle, Some(w + x), acc)
    decreases |x|
  {
    if |x| == 0 {
      assert x + rest == rest;
      assert w + x == w;
    } else {
      assert (x + rest)[0] == x[0];
      assert (x + rest)[1..] == x[1..] + rest;
      ScanSingleRun(x[1..], rest, w + [x[0]], acc);
      assert w + [x[0]] + x[1..] == w + x;
    }
  }

  /** The five characters `'"'"'` that stand for a quote inside single
      quotes: close, a double-quoted quote, reopen. */
  lemma ScanEscapedQuote(rest: string, w: string, acc: seq<string>)
    ensures Scan("'\"'\"'" + rest, InSingle, Some(w), acc) == Scan(rest, InSingle, Some(w + "'"), acc)
  {
    var s1, s2, s3, s4 := "\"'\"'" + rest, "'\"'" + rest, "\"'" + rest, "'" + rest;
    var s0 := "'" + s1;
    assert s0 == "'\"'\"'" + rest;
    assert s0[0] == '\'' && s0[1..] == s1;
    assert Scan(s0, InSingle, Some(w), acc) == Scan(s1, Bare, Some(w), acc);
    assert s1[0] == '"' && s1[1..] == s2;
    assert Scan(s1, Bare, Some(w), acc) == Scan(s2, InDouble, Some(w), acc);
    assert s2[0] == '\'' && s2[1..] == s3;
    assert Scan(s2, InDouble, Some(w), acc) == Scan(s3, InDouble, Some(w + "'"), acc);
    assert s3[0] == '"' && s3[1..] == s4;
    assert Scan(s3, InDouble, Some(w + "'"), acc) == Scan(s4, Bare, Some(w + "'"), acc);
    assert s4[0] == '\'' && s4[1..] == rest;
  }

  lemma {:induction false} ScanEscaped(x: string, rest: string, w: string, acc: seq<string>)
    ensures Scan(EscapeQuotes(x) + rest, InSingle, Some(w), acc) == Scan(rest, InSingle, Some(w + x), acc)
    decreases |x|
  {
    if |x| == 0 {
      assert EscapeQuotes(x) + rest == rest;
      assert w + x == w;
    } else {
      var tail := EscapeQuotes(x[1..]) + rest;
      var w' := w + [x[0]];
      assert Scan(EscapeQuotes(x) + rest, InSingle, Some(w), acc) == Scan(tail, InSingle, Some(w'), acc) by {
        if x[0] == '\'' {
          assert EscapeQuotes(x) + rest == "'\"'\"'" + tail;
          ScanEscapedQuote(tail, w, acc);
          assert w + "'" == w';
        } else {
          var s := EscapeQuotes(x) + rest;
          assert s == [x[0]] + tail;
          assert s[0] == x[0] && s[1..] == tail;
        }
      }
      assert Scan(tail, InSingle, Some(w'), acc) == Scan(rest, InSingle, Some(w' + x[1..]), acc) by {
        ScanEscaped(x[1..], rest, w', acc);
      }
      assert w' + x[1..] == w + x;
    }
  }

  lemma ScanQuotedEscaped(x: string, rest: string, w: string, acc: seq<string>)
    ensures Scan("'" + EscapeQuotes(x) + "'" + rest, Bare, Some(w), acc) == Scan(rest, Bare, Some(w + x), acc)
  {
    var body := EscapeQuotes(x) + ("'" + rest);
    var s := "'" + body;
    assert s == "'" + EscapeQuotes(x) + "'" + rest;
    assert s[0] == '\'' && s[1..] == body;
    assert Scan(s, Bare, Some(w), acc) == Scan(body, InSingle, Some(w), acc);
    ScanEscaped(x, "'" + rest, w, acc);
    assert ("'" + rest)[0] == '\'' && ("'" + rest)[1..] == rest;
  }

  /** A quoted word is read as exactly the original text, whatever it holds,
      and continues the word being read. */
  lemma ScanQuoted(x: string, rest: string, cur: Option<string>, acc: seq<string>)
    ensures Scan(ShellQuote(x) + rest, Bare, cur, acc) == Scan(rest, Bare, Some(Started(cur) + x), acc)
  {
    if x != "" && forall i :: 0 <= i < |x| ==> ShellSafe(x[i]) {
      ScanBareRun(x, rest, cur, acc);
    } else {
      var w := Started(cur);
      var s := "'" + EscapeQuotes(x) + "'" + rest;
      assert ShellQuote(x) + rest == s;
      ScanQuotedEscaped(x, rest, w, acc);
      assert s[0] == '\'' && Scan(s, Bare, cur, acc) == Scan(s[1..], InSingle, Some(w), acc);
      assert Scan(s, Bare, Some(w), acc) == Scan(s[1..], InSingle, Some(w), acc);
    }
  }

  /** `shlex.join(args)`: every argument quoted, separated by blanks. */
  function ShellJoin(args: seq<string>): string
  {
    if |args| == 0 then ""
    else if |args| == 1 then ShellQuote(args[0])
    else ShellQuote(args[0]) + " " + ShellJoin(args[1..])
  }

  /** The shell reads a line built by quoting each argument back as exactly
      those arguments, whatever characters they hold. */
  lemma {:induction false} ShellJoinWords(args: seq<string>, acc: seq<string>)
    requires |args| > 0
    ensures Scan(ShellJoin(args), Bare, None, acc) == Some(acc + args)
    decreases |args|
  {
    var x := args[0];
    if |args| == 1 {
      calc {
        Scan(ShellJoin(args), Bare, None, acc);
      == { assert ShellJoin(args) == ShellQuote(x) + ""; }
        Scan(ShellQuote(x) + "", Bare, None, acc);
      == { ScanQuoted(x, "", None, acc); assert Started(None) + x == x; }
        Scan("", Bare, Some(x), acc);
      == { assert acc + [x] == acc + args; }
        Some(acc + args);
      }
    } else {
      var more := ShellJoin(args[1..]);
      calc {
        Scan(ShellJoin(args), Bare, None, acc);
      == { assert ShellJoin(args) == ShellQuote(x) + (" " + more); }
        Scan(ShellQuote(x) + (" " + more), Bare, None, acc);
      == { ScanQuoted(x, " " + more, None, acc); assert Started(None) + x == x; }
        Scan(" " + more, Bare, Some(x), acc);
      == { ScanBlank(more, x, acc); }
        Scan(more, Bare, None, acc + [x]);
      == { ShellJoinWords(args[1..], acc + [x]); }
        Some(acc + [x] + args[1..]);
      == { assert acc + [x] + args[1..] == acc + args; }
        Some(acc + args);
      }
    }
  }

  /** `shlex.quote` makes one word of any text: the shell reads the quoted
      text back as exactly that text. */
  lemma ShellQuoteRoundTrip(s: string)
    ensures ShellWords(ShellQuote(s)) == Some([s])
  {
    ShellJoinWords([s], []);
    assert ShellJoin([s]) == ShellQuote(s);
    assert [] + [s] == [s];
  }
}

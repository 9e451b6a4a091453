/** A receipt as text: what the script prints, and how the daemon reads it back. */
module ReceiptText {
  import opened Wrappers
  import opened ExitReceipt

  /** How a task ended, as the daemon tells it. No code when nothing could say. */
  datatype Exit = Exit(code: Option<int>, timedOut: bool)

  function Digits(n: nat): string {
    if n < 10 then [DigitChar(n)] else Digits(n / 10) + [DigitChar(n % 10)]
  }

  function DigitChar(d: nat): char
    requires d < 10
  {
    ('0' as int + d) as char
  }

  function Decimal(n: int): string {
    if n < 0 then "-" + Digits(-n) else Digits(n)
  }

  /** The script's `printf "%s\n"` of the code and, when it timed out, the word. */
  function Print(r: Receipt): string {
    Decimal(r.code) + "\n" + (if r.timeout then "timeout\n" else "")
  }

  predicate IsDigit(c: char) { '0' <= c <= '9' }

  predicate AllDigits(s: string) { forall i :: 0 <= i < |s| ==> IsDigit(s[i]) }

  function Value(s: string): nat
    requires AllDigits(s)
  {
    if s == "" then 0 else 10 * Value(s[..|s| - 1]) + (s[|s| - 1] as int - '0' as int)
  }

  /** Rust's parse of a 64-bit integer: an optional sign, at least one digit, in range. */
  function ParseInt64(s: string): Option<int> {
    var signed := s != "" && (s[0] == '-' || s[0] == '+');
    var digits := if signed then s[1..] else s;
    if digits == "" || !AllDigits(digits) then None
    else
      var n: int := if signed && s[0] == '-' then -(Value(digits) as int) else Value(digits);
      if -0x8000_0000_0000_0000 <= n < 0x8000_0000_0000_0000 then Some(n) else None
  }

  predicate IsSpace(c: char) {
    var k := c as int;
    (9 <= k <= 13) || k == 32 || k == 0x85 || k == 0xA0 || k == 0x1680 || (0x2000 <= k <= 0x200A)
    || k == 0x2028 || k == 0x2029 || k == 0x202F || k == 0x205F || k == 0x3000
  }

  function TrimStart(s: string): string {
    if s != "" && IsSpace(s[0]) then TrimStart(s[1..]) else s
  }

  function TrimEnd(s: string): string {
    if s != "" && IsSpace(s[|s| - 1]) then TrimEnd(s[..|s| - 1]) else s
  }

  function Trim(s: string): string { TrimEnd(TrimStart(s)) }

  /** The length of the first line, its line break not counted. */
  function LineEnd(s: string): (n: nat)
    ensures n <= |s|
    ensures '\n' !in s[..n] && (n < |s| ==> s[n] == '\n')
  {
    if s == "" || s[0] == '\n' then 0
    else
      var n := LineEnd(s[1..]);
      assert s[..n + 1] == [s[0]] + s[1..][..n];
      1 + n
  }

  /** Rust's `lines`: a final line break ends the last line rather than starting another. */
  function Lines(s: string): seq<string> {
    if s == "" then []
    else
      var n := LineEnd(s);
      if n == |s| then [s]
      else [if n > 0 && s[n - 1] == '\r' then s[..n - 1] else s[..n]] + Lines(s[n + 1..])
  }

  /** The daemon's reading: the first line's code as the shell exits with it, and any `timeout` line. */
  function ParseReceipt(s: string): Exit {
    var lines := Lines(s);
    var code := if lines == [] then None else ParseInt64(Trim(lines[0]));
    Exit(if code.Some? then Some(code.value % 256) else None,
         exists i :: 0 <= i < |lines| && Trim(lines[i]) == "timeout")
  }

  lemma {:induction false} DigitsReadBack(n: nat)
    ensures Digits(n) != "" && AllDigits(Digits(n)) && Value(Digits(n)) == n
  {
    var d := Digits(n);
    if n >= 10 {
      DigitsReadBack(n / 10);
      assert d[..|d| - 1] == Digits(n / 10);
    } else {
      assert d[..|d| - 1] == "";
    }
  }

  lemma SignedParses(d: string, negative: bool)
    requires d != "" && AllDigits(d)
    requires var n: int := Value(d); -0x8000_0000_0000_0000 <= (if negative then -n else n) < 0x8000_0000_0000_0000
    ensures ParseInt64(if negative then "-" + d else d) == Some(if negative then -(Value(d) as int) else Value(d))
  {
    assert IsDigit(d[0]);
    if negative {
      assert ("-" + d)[1..] == d;
    }
  }

  lemma DecimalReadsBack(n: int)
    requires -0x8000_0000_0000_0000 <= n < 0x8000_0000_0000_0000
    ensures ParseInt64(Decimal(n)) == Some(n)
    ensures Decimal(n) != ""
    ensures forall i :: 0 <= i < |Decimal(n)| ==> IsDigit(Decimal(n)[i]) || Decimal(n)[i] == '-'
  {
    var k := if n < 0 then -n else n;
    DigitsReadBack(k);
    SignedParses(Digits(k), n < 0);
  }

  lemma NothingToTrim(s: string)
    requires s != "" && !IsSpace(s[0]) && !IsSpace(s[|s| - 1])
    ensures Trim(s) == s
  {
    assert TrimStart(s) == s;
  }

  lemma FirstLine(a: string, rest: string)
    requires '\n' !in a && '\r' !in a
    ensures Lines(a + "\n" + rest) == [a] + Lines(rest)
  {
    var s := a + "\n" + rest;
    var n := LineEnd(s);
    assert s[|a|] == '\n';
    assert forall i :: 0 <= i < |a| ==> s[i] == a[i] && a[i] in a;
    assert forall i :: 0 <= i < n ==> s[i] == s[..n][i] && s[i] in s[..n];
    assert n == |a|;
    assert s[..n] == a && s[n + 1..] == rest;
  }

  lemma TwoLines(first: string, second: string)
    requires '\n' !in first && '\r' !in first && '\n' !in second && '\r' !in second
    ensures Lines(first + "\n") == [first]
    ensures Lines(first + "\n" + (second + "\n")) == [first, second]
  {
    FirstLine(first, "");
    assert first + "\n" + "" == first + "\n";
    FirstLine(second, "");
    assert second + "\n" + "" == second + "\n";
    FirstLine(first, second + "\n");
  }

  lemma LinesRead(text: string, first: string, word: string, timeout: bool, code: int)
    requires Lines(text) == if timeout then [first, word] else [first]
    requires Trim(first) == first && Trim(word) == word == "timeout" && first != word
    requires ParseInt64(first) == Some(code)
    ensures ParseReceipt(text) == Exit(Some(code % 256), timeout)
  {
    var lines := Lines(text);
    assert timeout ==> Trim(lines[1]) == word;
  }

  /** What any receipt the script prints reads back as, for every code a shell can have. */
  lemma ReceiptReadsBack(r: Receipt)
    ensures ParseReceipt(Print(r)) == Exit(Some(r.code % 256), r.timeout)
  {
    var first, word := Decimal(r.code), "timeout";
    DecimalReadsBack(r.code);
    CodeIsOneLine(first);
    assert !IsSpace(word[0]) && !IsSpace(word[|word| - 1]);
    assert Print(r) == if r.timeout then first + "\n" + (word + "\n") else first + "\n";
    hide Decimal, Print, Lines, Trim, IsSpace, IsDigit, ParseInt64, ParseReceipt;
    TwoLines(first, word);
    NothingToTrim(first);
    NothingToTrim(word);
    LinesRead(Print(r), first, word, r.timeout, r.code);
  }

  lemma CodeIsOneLine(code: string)
    requires code != "" && forall i :: 0 <= i < |code| ==> IsDigit(code[i]) || code[i] == '-'
    ensures '\n' !in code && '\r' !in code && code[0] != 't' && !IsSpace(code[0]) && !IsSpace(code[|code| - 1])
  {
  }

  function Joined(lines: seq<string>): string { if lines == [] then "" else lines[0] + "\n" + Joined(lines[1..]) }

  lemma {:induction false} LinesOfJoined(lines: seq<string>)
    requires forall i :: 0 <= i < |lines| ==> '\n' !in lines[i] && '\r' !in lines[i]
    ensures Lines(Joined(lines)) == lines
  {
    hide Lines;
    if lines == [] {
      NoLines();
    } else {
      LinesOfJoined(lines[1..]);
      FirstLine(lines[0], Joined(lines[1..]));
    }
  }

  lemma NoLines()
    ensures Lines("") == []
  {
  }

  /** Of any text, line by line: the code is on the first, and the word may be on any, with blanks around it. */
  lemma AnyLineMayMark(lines: seq<string>, i: nat, a: string, b: string)
    requires forall j :: 0 <= j < |lines| ==> '\n' !in lines[j] && '\r' !in lines[j]
    requires i < |lines| && Blank(a) && Blank(b) && lines[i] == a + "timeout" + b
    ensures ParseReceipt(Joined(lines)).timedOut
  {
    LinesOfJoined(lines);
    assert !IsSpace("timeout"[0]) && !IsSpace("timeout"[|"timeout"| - 1]);
    hide Lines, IsSpace, ParseInt64;
    Padded("timeout", a, b);
    assert Trim(Lines(Joined(lines))[i]) == "timeout";
    hide Trim;
  }

  predicate Blank(s: string) { forall i :: 0 <= i < |s| ==> s[i] == ' ' || s[i] == '\t' }

  lemma {:induction false} BlankStart(a: string, s: string)
    requires Blank(a) && s != "" && !IsSpace(s[0])
    ensures TrimStart(a + s) == s
    decreases |a|
  {
    if a == "" {
      assert a + s == s;
    } else {
      assert (a + s)[1..] == a[1..] + s;
      BlankStart(a[1..], s);
    }
  }

  lemma {:induction false} BlankEnd(s: string, b: string)
    requires Blank(b) && s != "" && !IsSpace(s[|s| - 1])
    ensures TrimEnd(s + b) == s
    decreases |b|
  {
    if b == "" {
      assert s + b == s;
    } else {
      assert (s + b)[..|s + b| - 1] == s + b[..|b| - 1];
      BlankEnd(s, b[..|b| - 1]);
    }
  }

  /** Blanks around the code do not matter. */
  lemma PaddedReadsBack(code: Int64, a: string, b: string)
    requires Blank(a) && Blank(b)
    ensures ParseReceipt(a + Decimal(code) + b + "\n") == Exit(Some(code % 256), false)
  {
    var first := Decimal(code);
    var line := a + first + b;
    DecimalReadsBack(code);
    CodeIsOneLine(first);
    hide Decimal, Lines, IsSpace, IsDigit, ParseInt64, ParseReceipt;
    Padded(first, a, b);
    TwoLines(line, "");
    OneLineRead(line + "\n", line, first, code);
  }

  lemma Padded(s: string, a: string, b: string)
    requires Blank(a) && Blank(b) && s != "" && !IsSpace(s[0]) && !IsSpace(s[|s| - 1])
    requires '\n' !in s && '\r' !in s
    ensures Trim(a + s + b) == s && '\n' !in a + s + b && '\r' !in a + s + b
  {
    hide IsSpace;
    assert a + s + b == a + (s + b) && (s + b)[0] == s[0];
    BlankStart(a, s + b);
    BlankEnd(s, b);
  }

  lemma OneLineRead(text: string, line: string, code: string, n: int)
    requires Lines(text) == [line] && Trim(line) == code && ParseInt64(code) == Some(n) && code != "" && code[0] != 't'
    ensures ParseReceipt(text) == Exit(Some(n % 256), false)
  {
    hide Trim, ParseInt64, Lines;
  }

  /** The watchdog's literal text is the receipt of a timed-out task. */
  lemma WatchdogPrintsTheSame()
    ensures Print(TIMED_OUT) == "124\ntimeout\n"
  {
    assert Digits(1) == "1";
    assert Digits(12) == "12";
    assert Digits(124) == "124";
  }
}

// Quoting of Windows command lines (both quoting functions of the bridge) against
// the documented argument-splitting rules of CommandLineToArgvW: space and tab
// separate, 2n backslashes before a quote stand for n backslashes, 2n+1 for n
// backslashes and a literal quote, and the program name knows no escapes at all.
module CommandLine {

  // A UTF-16 code unit other than NUL, which cannot occur inside a command line.
  type wchar = c: int | 0 < c < 0x10000 witness 32
  type wstring = seq<wchar>

  const SPACE: wchar := 32
  const TAB: wchar := 9
  const QUOTE: wchar := 34
  const SLASH: wchar := 92

  function Slashes(n: nat): wstring {
    seq(n, _ => SLASH)
  }

  predicate IsBlank(c: wchar) { c == SPACE || c == TAB }

  predicate NeedsQuotes(value: wstring) {
    exists c | c in value :: IsBlank(c) || c == QUOTE
  }

  // -------------------------------------------------------------- quoting

  /** What follows in a quoted argument when `n` backslashes have been read but not yet written. */
  function Escaped(value: wstring, n: nat): wstring {
    if value == [] then Slashes(2 * n) + [QUOTE]
    else if value[0] == SLASH then Escaped(value[1..], n + 1)
    else if value[0] == QUOTE then Slashes(2 * n + 1) + [QUOTE] + Escaped(value[1..], 0)
    else Slashes(n) + [value[0]] + Escaped(value[1..], 0)
  }

  function Quoted(value: wstring): wstring {
    [QUOTE] + Escaped(value, 0)
  }

  /** The service upgrader's `quote`: always quotes. */
  method Quote(value: wstring) returns (result: wstring)
    ensures result == Quoted(value)
  {
    result := [QUOTE];
    var slashes := 0;
    for i := 0 to |value|
      invariant result + Escaped(value[i..], slashes) == Quoted(value)
    {
      var c := value[i];
      assert value[i..][0] == c && value[i..][1..] == value[i + 1..];
      if c == SLASH {
        slashes := slashes + 1;
      } else {
        ghost var before := result;
        var run := Slashes(if c == QUOTE then slashes * 2 + 1 else slashes);
        assert before + (run + [c] + Escaped(value[i + 1..], 0)) == before + run + [c] + Escaped(value[i + 1..], 0);
        result := result + run + [c];
        slashes := 0;
      }
    }
    assert value[|value|..] == [];
    result := result + Slashes(slashes * 2) + [QUOTE];
  }

  /** The bridge's `quote_windows_argument`: quotes only what contains a blank or a quote. */
  method QuoteWindowsArgument(value: wstring) returns (result: wstring)
    ensures result == if NeedsQuotes(value) then Quoted(value) else value
  {
    if !NeedsQuotes(value) { return value; }
    result := [QUOTE];
    var slashes := 0;
    for i := 0 to |value|
      invariant result + Escaped(value[i..], slashes) == Quoted(value)
    {
      var c := value[i];
      assert value[i..][0] == c && value[i..][1..] == value[i + 1..];
      if c == SLASH {
        slashes := slashes + 1;
        continue;
      }
      ghost var before := result;
      var run := if c == QUOTE then Slashes(slashes * 2 + 1) else Slashes(slashes);
      result := result + run;
      slashes := 0;
      result := result + [c];
      assert before + (run + [c] + Escaped(value[i + 1..], 0)) == result + Escaped(value[i + 1..], 0);
    }
    assert value[|value|..] == [];
    result := result + Slashes(slashes * 2);
    result := result + [QUOTE];
  }

  // -------------------------------------------------------------- parsing

  // Windows versions differ on a doubled quote inside a quoted stretch: it either
  // closes and reopens the stretch, or stands for a quote. `doubled` selects.

  /** Reads one argument: `n` backslashes are pending, `quoted` says we are between quotes. */
  function Scan(s: wstring, n: nat, quoted: bool, arg: wstring, doubled: bool): (r: (wstring, wstring))
    ensures |r.1| <= |s|
    decreases |s|
  {
    if s == [] then (arg + Slashes(n), [])
    else if s[0] == SLASH then Scan(s[1..], n + 1, quoted, arg, doubled)
    else if s[0] == QUOTE then
      if n % 2 == 1 then Scan(s[1..], 0, quoted, arg + Slashes(n / 2) + [QUOTE], doubled)
      else if doubled && quoted && |s| > 1 && s[1] == QUOTE then
        Scan(s[2..], 0, quoted, arg + Slashes(n / 2) + [QUOTE], doubled)
      else Scan(s[1..], 0, !quoted, arg + Slashes(n / 2), doubled)
    else if !quoted && IsBlank(s[0]) then (arg + Slashes(n), s)
    else Scan(s[1..], 0, quoted, arg + Slashes(n) + [s[0]], doubled)
  }

  function SkipBlanks(s: wstring): (r: wstring)
    ensures |r| <= |s|
    ensures r == [] || !IsBlank(r[0])
  {
    if s != [] && IsBlank(s[0]) then SkipBlanks(s[1..]) else s
  }

  /** The arguments after the program name. */
  function Arguments(line: wstring, doubled: bool): seq<wstring>
    decreases |line|
  {
    var s := SkipBlanks(line);
    if s == [] then []
    else
      ScanProgresses(s, 0, false, [], doubled);
      var (arg, rest) := Scan(s, 0, false, [], doubled);
      [arg] + Arguments(rest, doubled)
  }

  lemma ScanProgresses(s: wstring, n: nat, quoted: bool, arg: wstring, doubled: bool)
    requires s != [] && !IsBlank(s[0])
    ensures |Scan(s, n, quoted, arg, doubled).1| < |s|
  {
  }

  /** Index of the first character that ends a program name: a quote, or a blank. */
  function NameEnd(s: wstring, quoted: bool): (n: nat)
    ensures n <= |s|
    ensures forall i | 0 <= i < n :: if quoted then s[i] != QUOTE else !IsBlank(s[i])
    ensures n < |s| ==> if quoted then s[n] == QUOTE else IsBlank(s[n])
  {
    if s == [] || (if quoted then s[0] == QUOTE else IsBlank(s[0])) then 0 else 1 + NameEnd(s[1..], quoted)
  }

  /** CommandLineToArgvW on a line that starts with a program name. */
  function ToArgv(line: wstring, doubled: bool): seq<wstring> {
    if line != [] && line[0] == QUOTE then
      var n := NameEnd(line[1..], true);
      [line[1..][..n]] + Arguments(if n < |line| - 1 then line[1..][n + 1..] else [], doubled)
    else
      var n := NameEnd(line, false);
      [line[..n]] + Arguments(line[n..], doubled)
  }

  // --------------------------------------------------------- round trips

  /** A boundary after an argument: the end of the line, or a blank. */
  predicate Ends(t: wstring) { t == [] || IsBlank(t[0]) }

  lemma {:induction false} ScanSlashes(k: nat, s: wstring, n: nat, quoted: bool, arg: wstring, doubled: bool)
    ensures Scan(Slashes(k) + s, n, quoted, arg, doubled) == Scan(s, n + k, quoted, arg, doubled)
    decreases k
  {
    if k == 0 {
      assert Slashes(0) + s == s;
    } else {
      var line := Slashes(k) + s;
      assert line[0] == SLASH && line[1..] == Slashes(k - 1) + s;
      ScanSlashes(k - 1, s, n + 1, quoted, arg, doubled);
    }
  }

  /**
   * The documented rules in numbers: 2n backslashes before a quote give n of them and open or close a stretch, 2n + 1
   * give n and a quote; before anything else backslashes stand for themselves; a space or tab outside a stretch ends
   * the argument.
   */
  lemma DocumentedRules(n: nat, c: wchar, s: wstring, quoted: bool, arg: wstring)
    ensures Scan(seq(2 * n, _ => 92) + ([34] + s), 0, quoted, arg, false) ==
            Scan(s, 0, !quoted, arg + seq(n, _ => 92), false)
    ensures Scan(seq(2 * n + 1, _ => 92) + ([34] + s), 0, quoted, arg, false) ==
            Scan(s, 0, quoted, arg + seq(n, _ => 92) + [34], false)
    ensures c != 92 && c != 34 && (quoted || (c != 32 && c != 9)) ==>
              Scan(seq(n, _ => 92) + ([c] + s), 0, quoted, arg, false) ==
              Scan(s, 0, quoted, arg + seq(n, _ => 92) + [c], false)
    ensures c == 32 || c == 9 ==>
              Scan(seq(n, _ => 92) + ([c] + s), 0, false, arg, false) == (arg + seq(n, _ => 92), [c] + s)
  {
    assert seq(n, _ => 92) == Slashes(n) && seq(2 * n, _ => 92) == Slashes(2 * n);
    assert seq(2 * n + 1, _ => 92) == Slashes(2 * n + 1);
    ScanSlashes(2 * n, [34] + s, 0, quoted, arg, false);
    ScanSlashes(2 * n + 1, [34] + s, 0, quoted, arg, false);
    ScanSlashes(n, [c] + s, 0, quoted, arg, false);
    ScanSlashes(n, [c] + s, 0, false, arg, false);
    assert ([34] + s)[1..] == s && ([c] + s)[1..] == s;
  }

  // The two ways an argument grows while backslashes are pending.

  lemma PendingSlash(arg: wstring, n: nat, value: wstring)
    requires value != [] && value[0] == SLASH
    ensures arg + Slashes(n + 1) + value[1..] == arg + Slashes(n) + value
  {
  }

  lemma PendingChar(arg: wstring, n: nat, value: wstring)
    requires value != []
    ensures arg + Slashes(n) + [value[0]] + Slashes(0) + value[1..] == arg + Slashes(n) + value
  {
  }

  lemma ScanRun(k: nat, c: wchar, s: wstring, arg: wstring, doubled: bool)
    requires c != SLASH && (c == QUOTE ==> k % 2 == 1)
    ensures Scan(Slashes(k) + ([c] + s), 0, true, arg, doubled) ==
            Scan(s, 0, true, arg + Slashes(if c == QUOTE then k / 2 else k) + [c], doubled)
  {
    ScanSlashes(k, [c] + s, 0, true, arg, doubled);
    assert ([c] + s)[1..] == s;
  }

  lemma ScanClosing(n: nat, tail: wstring, arg: wstring, doubled: bool)
    requires Ends(tail)
    ensures Scan(Slashes(2 * n) + ([QUOTE] + tail), 0, true, arg, doubled) == (arg + Slashes(n), tail)
  {
    ScanSlashes(2 * n, [QUOTE] + tail, 0, true, arg, doubled);
    assert ([QUOTE] + tail)[1..] == tail;
    ScanQuote([QUOTE] + tail, n, arg, doubled);
    ScanEnds(tail, arg + Slashes(n), doubled);
  }

  /** Reading what quoting wrote gives the argument back, whatever backslashes are pending. */
  lemma {:induction false} ScanEscaped(value: wstring, n: nat, tail: wstring, arg: wstring, doubled: bool)
    requires Ends(tail)
    ensures Scan(Escaped(value, n) + tail, 0, true, arg, doubled) == (arg + Slashes(n) + value, tail)
    decreases |value|
  {
    if value == [] {
      assert Escaped(value, n) + tail == Slashes(2 * n) + ([QUOTE] + tail);
      ScanClosing(n, tail, arg, doubled);
      assert arg + Slashes(n) + value == arg + Slashes(n);
    } else if value[0] == SLASH {
      ScanEscaped(value[1..], n + 1, tail, arg, doubled);
      PendingSlash(arg, n, value);
    } else {
      var c := value[0];
      var k := if c == QUOTE then 2 * n + 1 else n;
      var rest := Escaped(value[1..], 0) + tail;
      assert Escaped(value, n) + tail == Slashes(k) + ([c] + rest);
      ScanRun(k, c, rest, arg, doubled);
      ScanEscaped(value[1..], 0, tail, arg + Slashes(n) + [c], doubled);
      PendingChar(arg, n, value);
    }
  }

  lemma ScanQuote(s: wstring, n: nat, arg: wstring, doubled: bool)
    requires s != [] && s[0] == QUOTE && Ends(s[1..])
    ensures Scan(s, 2 * n, true, arg, doubled) == Scan(s[1..], 0, false, arg + Slashes(n), doubled)
  {
    assert |s| > 1 ==> s[1] == s[1..][0];
  }

  lemma ScanEnds(tail: wstring, arg: wstring, doubled: bool)
    requires Ends(tail)
    ensures Scan(tail, 0, false, arg, doubled) == (arg, tail)
  {
    assert arg + Slashes(0) == arg;
  }

  /** An argument without blanks or quotes stands for itself. */
  lemma {:induction false} ScanPlain(value: wstring, n: nat, tail: wstring, arg: wstring, doubled: bool)
    requires Ends(tail) && !NeedsQuotes(value)
    ensures Scan(value + tail, n, false, arg, doubled) == (arg + Slashes(n) + value, tail)
    decreases |value|
  {
    if value == [] {
      assert value + tail == tail;
      assert arg + Slashes(n) + value == arg + Slashes(n);
    } else {
      var c := value[0];
      assert c in value;
      assert (value + tail)[1..] == value[1..] + tail;
      if c == SLASH {
        ScanPlain(value[1..], n + 1, tail, arg, doubled);
        PendingSlash(arg, n, value);
      } else {
        ScanPlain(value[1..], 0, tail, arg + Slashes(n) + [c], doubled);
        PendingChar(arg, n, value);
      }
    }
  }

  /** Each argument in its quoted form, each after one space. */
  function Spaced(args: seq<wstring>, always: bool): wstring {
    if args == [] then []
    else
      [SPACE] + (if always || NeedsQuotes(args[0]) then Quoted(args[0]) else args[0]) + Spaced(args[1..], always)
  }

  function NonEmpty(args: seq<wstring>): seq<wstring> {
    if args == [] then [] else if args[0] == [] then NonEmpty(args[1..]) else [args[0]] + NonEmpty(args[1..])
  }

  /** One more spaced form in front of a line contributes its argument, or nothing if the form is empty. */
  lemma ArgumentsStep(a: wstring, form: wstring, tail: wstring, doubled: bool)
    requires Ends(tail)
    requires form == Quoted(a) || (form == a && !NeedsQuotes(a))
    ensures Arguments([SPACE] + form + tail, doubled) ==
            if form == [] then Arguments(tail, doubled) else [a] + Arguments(tail, doubled)
  {
    var line := [SPACE] + form + tail;
    assert line[1..] == form + tail;
    assert SkipBlanks(line) == SkipBlanks(form + tail);
    if form == [] {
      assert form + tail == tail;
      SameAfterBlanks(line, tail, doubled);
    } else {
      ReadOne(a, form, tail, doubled);
      assert form[0] == (form + tail)[0];
      assert !IsBlank(form[0]) by { if form == a { assert a[0] in a; } }
      assert SkipBlanks(form + tail) == form + tail;
    }
  }

  /** Everything a process receives: all arguments, or the non-empty ones when quotes are left out. */
  lemma {:induction false} ArgumentsOfSpaced(args: seq<wstring>, always: bool, doubled: bool)
    ensures Arguments(Spaced(args, always), doubled) == if always then args else NonEmpty(args)
  {
    if args != [] {
      var a := args[0];
      var form := if always || NeedsQuotes(a) then Quoted(a) else a;
      ArgumentsStep(a, form, Spaced(args[1..], always), doubled);
      ArgumentsOfSpaced(args[1..], always, doubled);
      assert Spaced(args, always) == [SPACE] + form + Spaced(args[1..], always);
      assert args == [a] + args[1..];
      assert form == [] <==> !always && a == [];
    } else {
      assert SkipBlanks([]) == [];
    }
  }

  lemma SameAfterBlanks(s: wstring, t: wstring, doubled: bool)
    requires SkipBlanks(s) == SkipBlanks(t)
    ensures Arguments(s, doubled) == Arguments(t, doubled)
  {
  }

  lemma ReadOne(a: wstring, form: wstring, tail: wstring, doubled: bool)
    requires Ends(tail)
    requires form == Quoted(a) || (form == a && !NeedsQuotes(a))
    ensures Scan(form + tail, 0, false, [], doubled) == (a, tail)
  {
    assert Slashes(0) == [] && [] + Slashes(0) + a == a;
    if form == Quoted(a) {
      assert (form + tail)[1..] == Escaped(a, 0) + tail;
      assert Scan(form + tail, 0, false, [], doubled) == Scan(Escaped(a, 0) + tail, 0, true, [], doubled);
      ScanEscaped(a, 0, tail, [], doubled);
    } else {
      ScanPlain(a, 0, tail, [], doubled);
    }
  }

  // ------------------------------------------------- the program position

  /** A program path that survives position 0: no quote, and no backslash at the end. */
  predicate PlainProgram(exe: wstring) {
    QUOTE !in exe && (exe == [] || exe[|exe| - 1] != SLASH)
  }

  /** How many backslashes quoting adds before the closing quote. */
  function Trailing(value: wstring, n: nat): nat {
    if value == [] then n else if value[0] == SLASH then Trailing(value[1..], n + 1) else Trailing(value[1..], 0)
  }

  lemma {:induction false} TrailingIsZero(value: wstring, n: nat)
    ensures Trailing(value, n) == 0 <==> if value == [] then n == 0 else value[|value| - 1] != SLASH
  {
    if value != [] {
      TrailingIsZero(value[1..], if value[0] == SLASH then n + 1 else 0);
      assert |value| > 1 ==> value[1..][|value| - 2] == value[|value| - 1];
    }
  }

  lemma {:induction false} EscapedPlain(value: wstring, n: nat)
    requires QUOTE !in value
    ensures Escaped(value, n) == Slashes(n) + value + (Slashes(Trailing(value, n)) + [QUOTE])
    decreases |value|
  {
    if value == [] {
      assert Slashes(n) + value + (Slashes(n) + [QUOTE]) == Slashes(2 * n) + [QUOTE];
    } else {
      var c := value[0];
      var end := Slashes(Trailing(value, n)) + [QUOTE];
      if c == SLASH {
        EscapedPlain(value[1..], n + 1);
        PendingSlash([], n, value);
        assert [] + Slashes(n) == Slashes(n) && [] + Slashes(n + 1) == Slashes(n + 1);
      } else {
        EscapedPlain(value[1..], 0);
        assert Slashes(n) + [c] + (Slashes(0) + value[1..] + end) == Slashes(n) + value + end;
      }
    }
  }

  /** The name of a quoted program without quotes in it. */
  lemma NameOfQuoteless(exe: wstring, tail: wstring)
    requires QUOTE !in exe
    ensures var body := Escaped(exe, 0) + tail; var n := NameEnd(body, true);
            && n < |body|
            && body[..n] == exe + Slashes(Trailing(exe, 0))
            && body[n + 1..] == tail
  {
    var body := Escaped(exe, 0) + tail;
    var n := NameEnd(body, true);
    EscapedPlain(exe, 0);
    var name := exe + Slashes(Trailing(exe, 0));
    assert Slashes(0) + exe == exe;
    assert body == name + ([QUOTE] + tail);
    assert forall i | 0 <= i < |name| :: body[i] == name[i] && name[i] != QUOTE;
    assert body[|name|] == QUOTE;
    assert n == |name|;
  }

  /** The first character of the quoted form that closes a program name. */
  lemma NameOfQuoted(exe: wstring, tail: wstring)
    ensures var body := Escaped(exe, 0) + tail; var n := NameEnd(body, true);
            && n < |body|
            && (PlainProgram(exe) ==> body[..n] == exe && body[n + 1..] == tail)
            && (!PlainProgram(exe) ==> body[..n] != exe)
  {
    if QUOTE !in exe {
      NameOfQuoteless(exe, tail);
      TrailingIsZero(exe, 0);
      assert exe + Slashes(0) == exe;
    } else {
      var body := Escaped(exe, 0) + tail;
      var n := NameEnd(body, true);
      var i := EscapedHasQuote(exe, 0);
      assert body[i] == QUOTE;
      assert n <= i;
      assert QUOTE !in body[..n];
    }
  }

  lemma {:induction false} EscapedHasQuote(value: wstring, n: nat) returns (i: nat)
    ensures i < |Escaped(value, n)| && Escaped(value, n)[i] == QUOTE
    decreases |value|
  {
    if value == [] {
      i := 2 * n;
    } else if value[0] == SLASH {
      i := EscapedHasQuote(value[1..], n + 1);
    } else {
      var k := if value[0] == QUOTE then 2 * n + 1 else n;
      i := EscapedHasQuote(value[1..], 0);
      i := i + k + 1;
    }
  }

  // ------------------------------------------------------- command lines

  /** `run` of the upgrader: the quoted executable, then every argument quoted after a space. */
  method BuildUpgradeLine(exe: wstring, args: seq<wstring>) returns (line: wstring)
    ensures line == Quoted(exe) + Spaced(args, true)
  {
    line := Quote(exe);
    for i := 0 to |args|
      invariant line + Spaced(args[i..], true) == Quoted(exe) + Spaced(args, true)
    {
      ghost var before := line;
      var q := Quote(args[i]);
      assert args[i..][0] == args[i] && args[i..][1..] == args[i + 1..];
      line := line + [SPACE] + q;
      assert before + ([SPACE] + q + Spaced(args[i + 1..], true)) == line + Spaced(args[i + 1..], true);
    }
    assert args[|args|..] == [];
  }

  /** The bridge's FFmpeg command line. */
  method BuildBridgeLine(exe: wstring, args: seq<wstring>) returns (line: wstring)
    ensures line == (if NeedsQuotes(exe) then Quoted(exe) else exe) + Spaced(args, false)
  {
    line := QuoteWindowsArgument(exe);
    ghost var head := line;
    for i := 0 to |args|
      invariant line + Spaced(args[i..], false) == head + Spaced(args, false)
    {
      ghost var before := line;
      var q := QuoteWindowsArgument(args[i]);
      assert args[i..][0] == args[i] && args[i..][1..] == args[i + 1..];
      line := line + ([SPACE] + q);
      assert before + ([SPACE] + q + Spaced(args[i + 1..], false)) == line + Spaced(args[i + 1..], false);
    }
    assert args[|args|..] == [];
  }

  lemma QuotedProgramLine(exe: wstring, tail: wstring, doubled: bool)
    ensures PlainProgram(exe) ==> ToArgv(Quoted(exe) + tail, doubled) == [exe] + Arguments(tail, doubled)
    ensures !PlainProgram(exe) ==> ToArgv(Quoted(exe) + tail, doubled)[0] != exe
  {
    var line := Quoted(exe) + tail;
    assert line[1..] == Escaped(exe, 0) + tail;
    NameOfQuoted(exe, tail);
  }

  lemma PlainProgramLine(exe: wstring, tail: wstring, doubled: bool)
    requires !NeedsQuotes(exe) && Ends(tail)
    ensures ToArgv(exe + tail, doubled) == [exe] + Arguments(tail, doubled)
  {
    var line := exe + tail;
    var n := NameEnd(line, false);
    assert forall i | 0 <= i < |exe| :: line[i] == exe[i] && exe[i] in exe;
    assert tail != [] ==> line[|exe|] == tail[0];
    assert n == |exe|;
    assert line[..n] == exe && line[n..] == tail;
  }

  /** The upgrader's line is read back as written exactly when the program path is plain. */
  lemma UpgradeLineRoundTrip(exe: wstring, args: seq<wstring>, doubled: bool)
    ensures ToArgv(Quoted(exe) + Spaced(args, true), doubled) == [exe] + args <==> PlainProgram(exe)
  {
    QuotedProgramLine(exe, Spaced(args, true), doubled);
    ArgumentsOfSpaced(args, true, doubled);
    assert ([exe] + args)[0] == exe;
  }

  /** The bridge's line loses its empty arguments; it round-trips exactly when there are none and the path fits. */
  lemma BridgeLineRoundTrip(exe: wstring, args: seq<wstring>, doubled: bool)
    ensures var argv := ToArgv((if NeedsQuotes(exe) then Quoted(exe) else exe) + Spaced(args, false), doubled);
            var fits := NeedsQuotes(exe) ==> PlainProgram(exe);
            && (fits ==> argv == [exe] + NonEmpty(args))
            && (argv == [exe] + args <==> fits && [] !in args)
  {
    var tail := Spaced(args, false);
    ArgumentsOfSpaced(args, false, doubled);
    NonEmptyKeeps(args);
    if NeedsQuotes(exe) {
      QuotedProgramLine(exe, tail, doubled);
    } else {
      PlainProgramLine(exe, tail, doubled);
    }
    assert ([exe] + args)[0] == exe;
    assert ([exe] + NonEmpty(args))[1..] == NonEmpty(args) && ([exe] + args)[1..] == args;
  }

  lemma {:induction false} NonEmptyKeeps(args: seq<wstring>)
    ensures NonEmpty(args) == args <==> [] !in args
    ensures |NonEmpty(args)| <= |args|
  {
    if args != [] {
      NonEmptyKeeps(args[1..]);
      assert args == [args[0]] + args[1..];
      assert [] in args <==> args[0] == [] || [] in args[1..];
      if args[0] != [] && NonEmpty(args) == args {
        assert NonEmpty(args[1..]) == NonEmpty(args)[1..] == args[1..];
      }
    }
  }
}

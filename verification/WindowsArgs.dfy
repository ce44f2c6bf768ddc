// Windows command lines (core/src/spawned_process.cpp): quoting an argv into one flat string, and the rules
// by which the spawned child splits that string again.
module WindowsArgs {

  // ---------------------------------------------------------------- the child's splitting rules

  function Backslashes(n: nat): string {
    if n == 0 then "" else "\\" + Backslashes(n - 1)
  }

  predicate IsSeparator(c: char) { c == ' ' || c == '\t' }

  // Reads on inside an argument: `arg` is what was collected so far, `run` counts the backslashes just read,
  // `quoted` tells whether quoted mode is on.
  //   2n backslashes and a quote   -> n backslashes, and quoted mode toggles
  //   2n+1 backslashes and a quote -> n backslashes and a literal quote
  //   backslashes before anything else stand for themselves
  //   a separator outside quoted mode ends the argument
  function SplitInside(s: string, arg: string, run: nat, quoted: bool): seq<string>
    decreases |s|, 1
  {
    if s == "" then [arg + Backslashes(run)]
    else if s[0] == '\\' then SplitInside(s[1..], arg, run + 1, quoted)
    else if s[0] == '"' then
      if run % 2 == 0 then SplitInside(s[1..], arg + Backslashes(run / 2), 0, !quoted)
      else SplitInside(s[1..], arg + Backslashes(run / 2) + "\"", 0, quoted)
    else if IsSeparator(s[0]) && !quoted then [arg + Backslashes(run)] + SplitCommandLine(s[1..])
    else SplitInside(s[1..], arg + Backslashes(run) + [s[0]], 0, quoted)
  }

  function SplitCommandLine(s: string): seq<string>
    decreases |s|, 2
  {
    if s == "" then []
    else if IsSeparator(s[0]) then SplitCommandLine(s[1..])
    else SplitInside(s, "", 0, false)
  }

  // The child sees a C string: everything before the first NUL.
  function CString(s: string): string {
    if s == "" || s[0] == '\0' then "" else [s[0]] + CString(s[1..])
  }

  // ---------------------------------------------------------------- quoting

  // The rest of a quoted argument, with `run` backslashes still undecided, up to the closing quote.
  function QuoteRest(arg: string, run: nat): string {
    if arg == "" then Backslashes(2 * run) + "\""
    else if arg[0] == '\\' then QuoteRest(arg[1..], run + 1)
    else if arg[0] == '"' then Backslashes(2 * run + 1) + "\"" + QuoteRest(arg[1..], 0)
    else Backslashes(run) + [arg[0]] + QuoteRest(arg[1..], 0)
  }

  function Quote(arg: string): string { "\"" + QuoteRest(arg, 0) }

  function CommandLine(argv: seq<string>): string {
    if argv == [] then ""
    else if |argv| == 1 then Quote(argv[0])
    else CommandLine(argv[..|argv| - 1]) + " " + Quote(argv[|argv| - 1])
  }

  method QuoteWindowsArg(arg: string) returns (quoted: string)
    ensures quoted == Quote(arg)
  {
    quoted := "\"";
    var pending: nat := 0;
    var i := 0;
    while i < |arg|
      invariant 0 <= i <= |arg|
      invariant quoted + QuoteRest(arg[i..], pending) == Quote(arg)
    {
      var c := arg[i];
      assert arg[i..][1..] == arg[i + 1..];
      if c == '\\' {
        pending := pending + 1;
      } else {
        ghost var was := quoted;
        if c == '"' {
          quoted := quoted + Backslashes(2 * pending + 1) + "\"";
          assert was + (Backslashes(2 * pending + 1) + "\"" + QuoteRest(arg[i + 1..], 0))
              == quoted + QuoteRest(arg[i + 1..], 0);
        } else {
          quoted := quoted + Backslashes(pending) + [c];
          assert was + (Backslashes(pending) + [c] + QuoteRest(arg[i + 1..], 0)) == quoted + QuoteRest(arg[i + 1..], 0);
        }
        pending := 0;
      }
      i := i + 1;
    }
    assert arg[i..] == "";
    assert quoted + (Backslashes(2 * pending) + "\"") == quoted + Backslashes(2 * pending) + "\"";
    quoted := quoted + Backslashes(2 * pending) + "\"";
  }

  method BuildWindowsCommandLine(argv: seq<string>) returns (cmdLine: string)
    ensures cmdLine == CommandLine(argv)
    // The round trip, exactly for the argument lists a C string can carry.
    ensures SplitCommandLine(cmdLine) == argv
    ensures SplitCommandLine(CString(cmdLine)) == argv <==> forall a :: a in argv ==> '\0' !in a
  {
    cmdLine := "";
    for i := 0 to |argv|
      invariant cmdLine == CommandLine(argv[..i])
    {
      assert argv[..i + 1][..i] == argv[..i];
      if i > 0 {
        cmdLine := cmdLine + " ";
      }
      var q := QuoteWindowsArg(argv[i]);
      cmdLine := cmdLine + q;
    }
    assert argv[..|argv|] == argv;
    RoundTrip(argv);
    RoundTripThroughCString(argv);
  }

  // ---------------------------------------------------------------- round trip

  lemma {:induction false} BackslashesAdd(a: nat, b: nat)
    ensures Backslashes(a) + Backslashes(b) == Backslashes(a + b)
  {
    if a > 0 {
      BackslashesAdd(a - 1, b);
      assert Backslashes(a) + Backslashes(b) == "\\" + (Backslashes(a - 1) + Backslashes(b));
    }
  }

  // A run of backslashes is only counted.
  lemma {:induction false} SplitRun(n: nat, rest: string, arg: string, run: nat, quoted: bool)
    ensures SplitInside(Backslashes(n) + rest, arg, run, quoted) == SplitInside(rest, arg, run + n, quoted)
  {
    if n == 0 {
      assert Backslashes(0) + rest == rest;
    } else {
      var s := Backslashes(n) + rest;
      assert s[0] == '\\' && s[1..] == Backslashes(n - 1) + rest;
      SplitRun(n - 1, rest, arg, run + 1, quoted);
    }
  }

  lemma {:induction false} SplitClosing(run: nat, tail: string, got: string)
    ensures SplitInside(Backslashes(2 * run) + "\"" + tail, got, 0, true)
        == SplitInside(tail, got + Backslashes(run), 0, false)
  {
    assert Backslashes(2 * run) + "\"" + tail == Backslashes(2 * run) + ("\"" + tail);
    SplitRun(2 * run, "\"" + tail, got, 0, true);
  }

  lemma {:induction false} SplitEscapedQuote(run: nat, rest: string, got: string)
    ensures SplitInside(Backslashes(2 * run + 1) + "\"" + rest, got, 0, true)
         == SplitInside(rest, got + Backslashes(run) + "\"", 0, true)
  {
    assert Backslashes(2 * run + 1) + "\"" + rest == Backslashes(2 * run + 1) + ("\"" + rest);
    SplitRun(2 * run + 1, "\"" + rest, got, 0, true);
    assert ("\"" + rest)[1..] == rest;
  }

  lemma {:induction false} SplitPlain(run: nat, c: char, rest: string, got: string)
    requires c != '\\' && c != '"'
    ensures SplitInside(Backslashes(run) + [c] + rest, got, 0, true)
        == SplitInside(rest, got + Backslashes(run) + [c], 0, true)
  {
    assert Backslashes(run) + [c] + rest == Backslashes(run) + ([c] + rest);
    SplitRun(run, [c] + rest, got, 0, true);
    assert ([c] + rest)[1..] == rest;
  }

  // In quoted mode, the quoted rest of an argument reads back as the argument and leaves quoted mode.
  lemma {:induction false} SplitQuoteRest(arg: string, run: nat, tail: string, got: string)
    ensures SplitInside(QuoteRest(arg, run) + tail, got, 0, true)
        == SplitInside(tail, got + Backslashes(run) + arg, 0, false)
    decreases |arg|
  {
    hide SplitInside;
    if arg == "" {
      SplitClosing(run, tail, got);
      assert got + Backslashes(run) + arg == got + Backslashes(run);
    } else if arg[0] == '\\' {
      SplitQuoteRest(arg[1..], run + 1, tail, got);
      OneBackslashMore(got, run, arg);
    } else {
      SplitOneChar(arg, run, tail, got);
      SplitQuoteRest(arg[1..], 0, tail, got + Backslashes(run) + [arg[0]]);
      OneCharMore(got + Backslashes(run), arg);
    }
  }

  lemma {:induction false} SplitOneChar(arg: string, run: nat, tail: string, got: string)
    requires arg != "" && arg[0] != '\\'
    ensures SplitInside(QuoteRest(arg, run) + tail, got, 0, true)
         == SplitInside(QuoteRest(arg[1..], 0) + tail, got + Backslashes(run) + [arg[0]], 0, true)
  {
    hide SplitInside, Backslashes;
    var rest := QuoteRest(arg[1..], 0);
    if arg[0] == '"' {
      assert QuoteRest(arg, run) + tail == Backslashes(2 * run + 1) + "\"" + (rest + tail);
      SplitEscapedQuote(run, rest + tail, got);
    } else {
      assert QuoteRest(arg, run) + tail == Backslashes(run) + [arg[0]] + (rest + tail);
      SplitPlain(run, arg[0], rest + tail, got);
    }
  }

  lemma {:induction false} OneBackslashMore(got: string, run: nat, arg: string)
    requires arg != "" && arg[0] == '\\'
    ensures got + Backslashes(run + 1) + arg[1..] == got + Backslashes(run) + arg
  {
    BackslashesAdd(run, 1);
    assert Backslashes(1) == "\\";
    assert arg == "\\" + arg[1..];
  }

  lemma {:induction false} OneCharMore(got: string, arg: string)
    requires arg != ""
    ensures got + [arg[0]] + Backslashes(0) + arg[1..] == got + arg
  {
  }

  // Behind an argument that is over comes a separator or nothing.
  lemma {:induction false} ArgumentEnds(arg: string, tail: string)
    requires tail == "" || IsSeparator(tail[0])
    ensures SplitInside(tail, arg, 0, false) == [arg] + SplitCommandLine(tail)
  {
    assert arg + Backslashes(0) == arg;
    if tail == "" {
      assert [arg] + [] == [arg];
    } else {
      assert SplitCommandLine(tail) == SplitCommandLine(tail[1..]);
    }
  }

  lemma {:induction false} SplitQuoted(arg: string, tail: string)
    requires tail == "" || IsSeparator(tail[0])
    ensures SplitCommandLine(Quote(arg) + tail) == [arg] + SplitCommandLine(tail)
  {
    var s := Quote(arg) + tail;
    assert s[0] == '"' && s[1..] == QuoteRest(arg, 0) + tail;
    assert SplitInside(s, "", 0, false) == SplitInside(s[1..], "" + Backslashes(0), 0, true);
    assert "" + Backslashes(0) == "";
    SplitQuoteRest(arg, 0, tail, "");
    assert "" + Backslashes(0) + arg == arg;
    ArgumentEnds(arg, tail);
  }

  // More arguments may follow.
  lemma {:induction false} RoundTripBefore(argv: seq<string>, tail: string)
    requires tail == "" || IsSeparator(tail[0])
    ensures SplitCommandLine(CommandLine(argv) + tail) == argv + SplitCommandLine(tail)
    decreases |argv|
  {
    if argv == [] {
      assert CommandLine(argv) + tail == tail;
      assert argv + SplitCommandLine(tail) == SplitCommandLine(tail);
    } else {
      var n := |argv| - 1;
      var q := Quote(argv[n]) + tail;
      SplitQuoted(argv[n], tail);
      if n == 0 {
        assert argv == [argv[0]];
      } else {
        assert CommandLine(argv) + tail == CommandLine(argv[..n]) + (" " + q);
        RoundTripBefore(argv[..n], " " + q);
        assert (" " + q)[1..] == q;
        assert argv[..n] + ([argv[n]] + SplitCommandLine(tail)) == argv + SplitCommandLine(tail) by {
          assert argv == argv[..n] + [argv[n]];
        }
      }
    }
  }

  lemma {:induction false} RoundTrip(argv: seq<string>)
    ensures SplitCommandLine(CommandLine(argv)) == argv
  {
    RoundTripBefore(argv, "");
    assert CommandLine(argv) + "" == CommandLine(argv);
    assert argv + [] == argv;
  }

  // ---------------------------------------------------------------- NUL bytes

  lemma {:induction false} BackslashesOnly(n: nat)
    ensures '\0' !in Backslashes(n)
  {
    if n > 0 {
      BackslashesOnly(n - 1);
    }
  }

  lemma {:induction false} CStringFacts(s: string)
    ensures '\0' !in CString(s)
    ensures '\0' !in s ==> CString(s) == s
  {
    if s != "" && s[0] != '\0' {
      assert s == [s[0]] + s[1..];
      CStringFacts(s[1..]);
    }
  }

  lemma {:induction false} QuoteRestNulFree(arg: string, run: nat)
    requires '\0' !in arg
    ensures '\0' !in QuoteRest(arg, run)
    decreases |arg|
  {
    BackslashesOnly(2 * run);
    BackslashesOnly(2 * run + 1);
    BackslashesOnly(run);
    if arg != "" {
      assert arg == [arg[0]] + arg[1..];
      QuoteRestNulFree(arg[1..], if arg[0] == '\\' then run + 1 else 0);
    }
  }

  lemma {:induction false} CommandLineNulFree(argv: seq<string>)
    requires forall a :: a in argv ==> '\0' !in a
    ensures '\0' !in CommandLine(argv)
  {
    if argv != [] {
      var n := |argv| - 1;
      QuoteRestNulFree(argv[n], 0);
      CommandLineNulFree(argv[..n]);
    }
  }

  lemma {:induction false} SplitInsideNulFree(s: string, arg: string, run: nat, quoted: bool)
    requires '\0' !in s && '\0' !in arg
    ensures forall a :: a in SplitInside(s, arg, run, quoted) ==> '\0' !in a
    decreases |s|, 1
  {
    BackslashesOnly(run);
    BackslashesOnly(run / 2);
    if s != "" {
      assert s == [s[0]] + s[1..];
      if s[0] == '\\' {
        SplitInsideNulFree(s[1..], arg, run + 1, quoted);
      } else if s[0] == '"' {
        if run % 2 == 0 {
          SplitInsideNulFree(s[1..], arg + Backslashes(run / 2), 0, !quoted);
        } else {
          SplitInsideNulFree(s[1..], arg + Backslashes(run / 2) + "\"", 0, quoted);
        }
      } else if IsSeparator(s[0]) && !quoted {
        SplitNulFree(s[1..]);
      } else {
        SplitInsideNulFree(s[1..], arg + Backslashes(run) + [s[0]], 0, quoted);
      }
    }
  }

  lemma {:induction false} SplitNulFree(s: string)
    requires '\0' !in s
    ensures forall a :: a in SplitCommandLine(s) ==> '\0' !in a
    decreases |s|, 2
  {
    if s != "" {
      assert s == [s[0]] + s[1..];
      if IsSeparator(s[0]) {
        SplitNulFree(s[1..]);
      } else {
        SplitInsideNulFree(s, "", 0, false);
      }
    }
  }

  lemma {:induction false} RoundTripThroughCString(argv: seq<string>)
    ensures SplitCommandLine(CString(CommandLine(argv))) == argv <==> forall a :: a in argv ==> '\0' !in a
  {
    var s := CommandLine(argv);
    CStringFacts(s);
    SplitNulFree(CString(s));
    if forall a :: a in argv ==> '\0' !in a {
      CommandLineNulFree(argv);
      RoundTrip(argv);
    }
  }
}

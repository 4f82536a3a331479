/**
 The admin console's line splitter and option parser
 (java-admin/src/main/java/com/api/pool/cli/CLIHandler.java).
 */
module Cli {
  import opened Common

  /** `Character.isWhitespace`: Unicode separators other than no-break ones, and some control characters. */
  predicate IsWhitespace(c: char) {
    || '\U{0009}' <= c <= '\U{000D}' || '\U{001C}' <= c <= '\U{0020}' || c == '\U{1680}'
    || ('\U{2000}' <= c <= '\U{200A}' && c != '\U{2007}') || c == '\U{2028}' || c == '\U{2029}' || c == '\U{205F}'
    || c == '\U{3000}'
  }

  // ---- splitting a line ----

  datatype Scan = Scan(parts: seq<string>, cur: string, inQuotes: bool)

  const Blank := Scan([], "", false)

  function Flushed(s: Scan): Scan {
    if s.cur == "" then s else Scan(s.parts + [s.cur], "", s.inQuotes)
  }

  function Feed(s: Scan, c: char): Scan {
    if c == '"' then s.(inQuotes := !s.inQuotes)
    else if IsWhitespace(c) && !s.inQuotes then Flushed(s)
    else s.(cur := s.cur + [c])
  }

  function FeedAll(s: Scan, line: string): Scan
    decreases |line|
  {
    if line == "" then s else FeedAll(Feed(s, line[0]), line[1..])
  }

  function Split(line: string): seq<string> {
    Flushed(FeedAll(Blank, line)).parts
  }

  lemma {:induction false} FeedConcat(s: Scan, a: string, b: string)
    ensures FeedAll(s, a + b) == FeedAll(FeedAll(s, a), b)
    decreases |a|
  {
    if a == "" {
      assert a + b == b;
    } else {
      FeedConcat(Feed(s, a[0]), a[1..], b);
      assert (a + b)[0] == a[0] && (a + b)[1..] == a[1..] + b;
    }
  }

  lemma FeedNext(line: string, i: nat)
    requires i < |line|
    ensures FeedAll(Blank, line[..i + 1]) == Feed(FeedAll(Blank, line[..i]), line[i])
  {
    assert line[..i + 1] == line[..i] + [line[i]];
    FeedConcat(Blank, line[..i], [line[i]]);
    assert [line[i]][1..] == "";
  }

  method SplitArgs(line: string) returns (parts: seq<string>)
    ensures parts == Split(line)
  {
    parts := [];
    var cur := "";
    var inQuotes := false;
    for i := 0 to |line|
      invariant Scan(parts, cur, inQuotes) == FeedAll(Blank, line[..i])
    {
      FeedNext(line, i);
      var c := line[i];
      if c == '"' {
        inQuotes := !inQuotes;
      } else if IsWhitespace(c) && !inQuotes {
        if |cur| > 0 {
          parts := parts + [cur];
          cur := "";
        }
      } else {
        cur := cur + [c];
      }
    }
    assert line[..|line|] == line;
    if |cur| > 0 {
      parts := parts + [cur];
    }
  }

  /** Which characters separate arguments, by their code points. */
  lemma SeparatorsInFigures(c: char)
    ensures
      var u := c as int;
      Split("a" + [c] + "b") == ["a", "b"]
      <==> || 0x09 <= u <= 0x0D || 0x1C <= u <= 0x20 || u == 0x1680 || 0x2000 <= u <= 0x2006 || 0x2008 <= u <= 0x200A
           || u == 0x2028 || u == 0x2029 || u == 0x205F || u == 0x3000
  {
    var line := "a" + [c] + "b";
    assert line[..0] == "" && line[..3] == line && line[0] == 'a' && line[1] == c && line[2] == 'b';
    FeedNext(line, 0);
    FeedNext(line, 1);
    FeedNext(line, 2);
    var s := Feed(Blank, 'a');
    assert s == Scan([], "a", false) by {
      assert "" + ['a'] == "a";
    }
    assert FeedAll(Blank, line) == Feed(Feed(s, c), 'b');
    if c != '"' && IsWhitespace(c) {
      assert Feed(s, c) == Scan(["a"], "", false);
      assert "" + ['b'] == "b" && ["a"] + ["b"] == ["a", "b"];
    } else {
      assert Feed(s, c).parts == [] && Feed(Feed(s, c), 'b').parts == [];
      assert |Split(line)| == 1;
    }
  }

  function Flatten(parts: seq<string>): string {
    if parts == [] then "" else Flatten(parts[..|parts| - 1]) + parts[|parts| - 1]
  }

  /** The characters that belong to some token: no quotes, and whitespace only between quotes. */
  function Kept(line: string, inQuotes: bool): string {
    if line == "" then ""
    else if line[0] == '"' then Kept(line[1..], !inQuotes)
    else if IsWhitespace(line[0]) && !inQuotes then Kept(line[1..], inQuotes)
    else [line[0]] + Kept(line[1..], inQuotes)
  }

  function Held(s: Scan): string {
    Flatten(s.parts) + s.cur
  }

  lemma FlattenAppend(parts: seq<string>, p: string)
    ensures Flatten(parts + [p]) == Flatten(parts) + p
  {
    assert (parts + [p])[..|parts|] == parts;
  }

  lemma {:induction false} HeldIsKept(s: Scan, line: string)
    ensures Held(FeedAll(s, line)) == Held(s) + Kept(line, s.inQuotes)
    decreases |line|
  {
    if line != "" {
      var s' := Feed(s, line[0]);
      HeldIsKept(s', line[1..]);
      if line[0] != '"' {
        if IsWhitespace(line[0]) && !s.inQuotes {
          FlattenAppend(s.parts, s.cur);
          assert s.cur == "" || Flatten(s.parts + [s.cur]) + "" == Flatten(s.parts) + s.cur;
        } else {
          assert Flatten(s.parts) + (s.cur + [line[0]]) == Held(s) + [line[0]];
          assert Held(s) + [line[0]] + Kept(line[1..], s.inQuotes)
              == Held(s) + ([line[0]] + Kept(line[1..], s.inQuotes));
        }
      }
    }
  }

  lemma FlushKeeps(s: Scan)
    ensures Flatten(Flushed(s).parts) == Held(s)
  {
    if s.cur == "" {
      assert Flatten(s.parts) + "" == Flatten(s.parts);
    } else {
      FlattenAppend(s.parts, s.cur);
    }
  }

  /** Nothing is lost or invented: the tokens of any line, concatenated, are exactly its kept characters. */
  lemma SplitKeeps(line: string)
    ensures Flatten(Split(line)) == Kept(line, false)
  {
    HeldIsKept(Blank, line);
    assert Held(Blank) == "";
    assert "" + Kept(line, false) == Kept(line, false);
    FlushKeeps(FeedAll(Blank, line));
  }

  /** What a token can be at all. */
  predicate Token(p: string) {
    p != "" && '"' !in p
  }

  predicate TokensOnly(s: Scan) {
    (forall p :: p in s.parts ==> Token(p)) && '"' !in s.cur
  }

  lemma {:induction false} FeedTokens(s: Scan, line: string)
    requires TokensOnly(s)
    ensures TokensOnly(FeedAll(s, line))
    decreases |line|
  {
    if line != "" {
      FeedTokens(Feed(s, line[0]), line[1..]);
    }
  }

  lemma SplitTokens(line: string)
    ensures forall p :: p in Split(line) ==> Token(p)
  {
    FeedTokens(Blank, line);
  }

  /** A line yields no argument iff it keeps no character, as an empty pair of quotes does. */
  lemma SplitEmptyIff(line: string)
    ensures Split(line) == [] <==> Kept(line, false) == ""
  {
    SplitKeeps(line);
    SplitTokens(line);
    var parts := Split(line);
    if parts != [] {
      assert parts[|parts| - 1] in parts;
    }
  }

  function QuotesIn(line: string): nat {
    if line == "" then 0 else QuotesIn(line[..|line| - 1]) + (if line[|line| - 1] == '"' then 1 else 0)
  }

  /** A quote, or whitespace with an even number of quotes before it. */
  predicate Dropped(line: string, i: nat)
    requires i < |line|
  {
    line[i] == '"' || (IsWhitespace(line[i]) && QuotesIn(line[..i]) % 2 == 0)
  }

  /**
   The console reads the first argument of every line that is not blank, and there is none iff
   the line holds only quotes and unquoted whitespace.
   */
  lemma NoArgumentIff(line: string)
    ensures Split(line) == [] <==> forall i :: 0 <= i < |line| ==> Dropped(line, i)
  {
    SplitEmptyIff(line);
    KeptNothingIff(line, 0);
    assert line[0..] == line;
  }

  lemma {:induction false} KeptNothingIff(line: string, i: nat)
    requires i <= |line|
    ensures Kept(line[i..], QuotesIn(line[..i]) % 2 == 1) == "" <==> forall j :: i <= j < |line| ==> Dropped(line, j)
    decreases |line| - i
  {
    if i < |line| {
      var tail, within := line[i..], QuotesIn(line[..i]) % 2 == 1;
      assert tail[0] == line[i] && tail[1..] == line[i + 1..];
      assert line[..i + 1][..i] == line[..i] && line[..i + 1][i] == line[i];
      KeptNothingIff(line, i + 1);
      if Dropped(line, i) {
        assert Kept(tail, within) == Kept(tail[1..], QuotesIn(line[..i + 1]) % 2 == 1);
      } else {
        assert Kept(tail, within)[0] == line[i];
      }
    }
  }

  /** `String.trim` strips every character up to U+0020 at both ends. */
  function Trimmed(line: string): string {
    Strip(line, c => c <= ' ')
  }

  lemma TrimmedInFigures(c: char, line: string)
    requires line != "" && line[0] as int > 0x20 && line[|line| - 1] as int > 0x20
    ensures Trimmed([c] + line + [c]) == line <==> c as int <= 0x20
  {
    var s := [c] + line + [c];
    if c <= ' ' {
      StripUnique(s, c => c <= ' ', 1, |s| - 1);
      assert s[1..|s| - 1] == line;
    } else {
      StripUnique(s, c => c <= ' ', 0, |s|);
      assert |Trimmed(s)| == |line| + 2;
    }
  }

  /** A line of quotes alone gets past the check for blank lines and has no first argument. */
  lemma QuotesHaveNoArgument(line: string)
    requires line != "" && forall c :: c in line ==> c == '"'
    ensures Trimmed(line) == line != "" && Split(line) == []
  {
    NoArgumentIff(line);
    assert line[0] in line && line[|line| - 1] in line;
    assert line[0] == line[|line| - 1] == '"';
    StripUnique(line, c => c <= ' ', 0, |line|);
    forall i | 0 <= i < |line| ensures Dropped(line, i) {
      assert line[i] in line;
    }
  }

  function Quoted(arg: string): string {
    "\"" + arg + "\""
  }

  /** The arguments quoted and joined by spaces. */
  function Render(args: seq<string>): string {
    if args == [] then ""
    else if |args| == 1 then Quoted(args[0])
    else Render(args[..|args| - 1]) + (" " + Quoted(args[|args| - 1]))
  }

  lemma {:induction false} FeedInQuotes(s: Scan, arg: string)
    requires s.inQuotes && '"' !in arg
    ensures FeedAll(s, arg) == s.(cur := s.cur + arg)
    decreases |arg|
  {
    if arg == "" {
      assert s.cur + arg == s.cur;
    } else {
      FeedInQuotes(Feed(s, arg[0]), arg[1..]);
      assert s.cur + [arg[0]] + arg[1..] == s.cur + arg;
    }
  }

  lemma FeedQuoted(s: Scan, arg: string)
    requires !s.inQuotes && '"' !in arg
    ensures FeedAll(s, Quoted(arg)) == s.(cur := s.cur + arg)
  {
    var within := s.(inQuotes := true);
    assert Quoted(arg)[0] == '"' && Quoted(arg)[1..] == arg + "\"";
    FeedConcat(within, arg, "\"");
    FeedInQuotes(within, arg);
    assert "\""[1..] == "";
  }

  lemma {:induction false} FeedRendered(args: seq<string>)
    requires args != [] && forall a :: a in args ==> Token(a)
    ensures FeedAll(Blank, Render(args)) == Scan(args[..|args| - 1], args[|args| - 1], false)
  {
    var k := |args| - 1;
    assert args[k] in args;
    if k == 0 {
      FeedQuoted(Blank, args[0]);
      assert "" + args[0] == args[0];
    } else {
      FeedRendered(args[..k]);
      var before, after := Render(args[..k]), Quoted(args[k]);
      FeedConcat(Blank, before, " " + after);
      var s := Scan(args[..k - 1], args[k - 1], false);
      assert args[..k][..k - 1] == args[..k - 1] && args[k - 1] in args;
      assert (" " + after)[0] == ' ' && (" " + after)[1..] == after;
      FeedQuoted(Scan(args[..k], "", false), args[k]);
      assert args[..k - 1] + [args[k - 1]] == args[..k];
      assert "" + args[k] == args[k];
      assert Feed(s, ' ') == Scan(args[..k], "", false);
    }
  }

  /** Splitting undoes quoting iff no argument is empty or holds a double quote. */
  lemma SplitRenderIff(args: seq<string>)
    ensures Split(Render(args)) == args <==> forall a :: a in args ==> Token(a)
  {
    if forall a :: a in args ==> Token(a) {
      if args != [] {
        FeedRendered(args);
        assert args[|args| - 1] in args;
        assert args[..|args| - 1] + [args[|args| - 1]] == args;
      }
    } else {
      SplitTokens(Render(args));
    }
  }

  // ---- options ----

  predicate IsOption(arg: string) {
    |arg| >= 2 && arg[0] == '-' && arg[1] == '-'
  }

  function Parse(args: seq<string>, i: nat, opts: map<string, string>): map<string, string>
    decreases |args| - i
  {
    if i >= |args| then opts
    else if IsOption(args[i]) && i + 1 < |args| then
      if IsOption(args[i + 1]) then Parse(args, i + 1, opts[args[i][2..] := ""])
      else Parse(args, i + 2, opts[args[i][2..] := args[i + 1]])
    else Parse(args, i + 1, opts)
  }

  /** Which arguments are options: those that begin with two dashes, and what they are called. */
  lemma OptionsInFigures(command: string, arg: string, value: string)
    ensures Parse([command, arg, value], 1, map[])
         == if |arg| >= 2 && arg[..2] == "--" then
              map[arg[2..] := if |value| >= 2 && value[..2] == "--" then "" else value]
            else map[]
  {
    var args := [command, arg, value];
    assert forall s: string :: |s| >= 2 ==> (s[..2] == "--" <==> s[0] == '-' && s[1] == '-');
    assert Parse(args, 3, map[]) == map[] && Parse(args, 2, map[]) == map[];
    if IsOption(arg) {
      assert Parse(args, 2, map[arg[2..] := ""]) == map[arg[2..] := ""];
    }
  }

  method ParseOptions(args: seq<string>) returns (opts: map<string, string>)
    ensures opts == Parse(args, 1, map[])
  {
    opts := map[];
    var i := 1;
    while i < |args|
      invariant 1 <= i
      invariant Parse(args, i, opts) == Parse(args, 1, map[])
      decreases |args| - i
    {
      if IsOption(args[i]) && i + 1 < |args| {
        var key := args[i][2..];
        var value := args[i + 1];
        if IsOption(value) {
          opts := opts[key := ""];
        } else {
          opts := opts[key := value];
          i := i + 1;
        }
      }
      i := i + 1;
    }
  }

  /** The setting made at index `i`, looking at that argument and the next only. */
  function SettingAt(args: seq<string>, i: nat): Option<(string, string)> {
    if i + 1 < |args| && IsOption(args[i]) then
      Some((args[i][2..], if IsOption(args[i + 1]) then "" else args[i + 1]))
    else None
  }

  /** All settings made from index `lo` up to `hi`, later ones winning. */
  function Settings(args: seq<string>, lo: nat, hi: nat, opts: map<string, string>): map<string, string>
    requires lo <= hi
    decreases hi - lo
  {
    if lo == hi then opts
    else
      var s := SettingAt(args, lo);
      Settings(args, lo + 1, hi, if s.None? then opts else opts[s.value.0 := s.value.1])
  }

  /**
   Skipping consumed values makes no difference: on every command line the parser collects
   the setting made at every position after the first, the last one of a name winning.
   */
  lemma {:induction false} ParseIsSettings(args: seq<string>, i: nat, opts: map<string, string>)
    requires i <= |args|
    ensures Parse(args, i, opts) == Settings(args, i, |args|, opts)
    decreases |args| - i
  {
    if i < |args| {
      var s := SettingAt(args, i);
      var next := if s.None? then opts else opts[s.value.0 := s.value.1];
      if s.Some? && !IsOption(args[i + 1]) {
        ParseIsSettings(args, i + 2, next);
        assert Settings(args, i + 1, |args|, next) == Settings(args, i + 2, |args|, next);
      } else {
        ParseIsSettings(args, i + 1, next);
      }
    }
  }

  // ---- the round trip of `--name value` pairs ----

  function Pairs(opts: seq<(string, string)>): (args: seq<string>)
    ensures |args| == 2 * |opts|
    ensures forall i :: 0 <= i < |opts| ==> args[2 * i] == "--" + opts[i].0 && args[2 * i + 1] == opts[i].1
  {
    if opts == [] then [] else Pairs(opts[..|opts| - 1]) + ["--" + opts[|opts| - 1].0, opts[|opts| - 1].1]
  }

  /** The last value of each name. */
  function LastWins(opts: seq<(string, string)>): map<string, string> {
    if opts == [] then map[] else LastWins(opts[..|opts| - 1])[opts[|opts| - 1].0 := opts[|opts| - 1].1]
  }

  /** A pair after the `i`-th sets the name. */
  predicate SetLater(opts: seq<(string, string)>, i: int, name: string) {
    exists j :: 0 <= j < |opts| && i < j && opts[j].0 == name
  }

  /**
   No value that looks like an option does harm: the name it was meant for is set again later,
   and so is the name it is taken for, unless that name was blank already.
   */
  predicate Recovers(opts: seq<(string, string)>) {
    forall i :: 0 <= i < |opts| && IsOption(opts[i].1) ==>
      var taken := opts[i].1[2..];
      && SetLater(opts, i, opts[i].0)
      && (SetLater(opts, i, taken) || Lookup(LastWins(opts[..i]), taken) == Some(""))
  }

  /** What the parser has after the first `n` pairs: a value that looks like an option blanks two names. */
  function Read(opts: seq<(string, string)>, n: nat): map<string, string>
    requires n <= |opts|
  {
    if n == 0 then map[]
    else
      var (name, value) := opts[n - 1];
      var m := Read(opts, n - 1);
      if !IsOption(value) then m[name := value]
      else if n == |opts| then m[name := ""]
      else m[name := ""][value[2..] := ""]
  }

  lemma ParsePair(command: string, opts: seq<(string, string)>, n: nat, m: map<string, string>)
    requires n < |opts|
    ensures
      var args := [command] + Pairs(opts);
      var (name, value) := opts[n];
      Parse(args, 2 * n + 1, m)
      == Parse(args, 2 * n + 3,
               if !IsOption(value) then m[name := value]
               else if n + 1 == |opts| then m[name := ""]
               else m[name := ""][value[2..] := ""])
  {
    var args, pairs := [command] + Pairs(opts), Pairs(opts);
    var (name, value) := opts[n];
    assert args[2 * n + 1] == pairs[2 * n] == "--" + name && args[2 * n + 2] == pairs[2 * n + 1] == value;
    assert ("--" + name)[2..] == name;
    if IsOption(value) {
      assert Parse(args, 2 * n + 1, m) == Parse(args, 2 * n + 2, m[name := ""]);
      if n + 1 < |opts| {
        assert args[2 * n + 3] == pairs[2 * (n + 1)] == "--" + opts[n + 1].0;
      }
    }
  }

  lemma {:induction false} ParseReads(command: string, opts: seq<(string, string)>, n: nat)
    requires n <= |opts|
    ensures Parse([command] + Pairs(opts), 2 * n + 1, Read(opts, n)) == Parse([command] + Pairs(opts), 1, map[])
  {
    if n > 0 {
      ParseReads(command, opts, n - 1);
      ParsePair(command, opts, n - 1, Read(opts, n - 1));
    }
  }

  /** Names that no later pair sets are read right, if option-like values do no harm. */
  lemma {:induction false} ReadsRight(opts: seq<(string, string)>, n: nat, name: string)
    requires Recovers(opts) && n <= |opts| && !SetLater(opts, n - 1, name)
    ensures Lookup(Read(opts, n), name) == Lookup(LastWins(opts[..n]), name)
  {
    if n > 0 {
      assert opts[..n][..n - 1] == opts[..n - 1];
      if opts[n - 1].0 != name {
        assert !SetLater(opts, n - 2, name);
        ReadsRight(opts, n - 1, name);
      }
    }
  }

  lemma {:induction false} StaysBlank(opts: seq<(string, string)>, k: nat, n: nat, name: string)
    requires k <= n <= |opts| && !SetLater(opts, k - 1, name) && Lookup(Read(opts, k), name) == Some("")
    ensures Lookup(Read(opts, n), name) == Some("")
  {
    if k < n {
      StaysBlank(opts, k, n - 1, name);
    }
  }

  lemma {:induction false} StaysSet(opts: seq<(string, string)>, k: nat, n: nat, name: string)
    requires k <= n <= |opts| && !SetLater(opts, k - 1, name)
    ensures Lookup(LastWins(opts[..n]), name) == Lookup(LastWins(opts[..k]), name)
  {
    if k < n {
      StaysSet(opts, k, n - 1, name);
      assert opts[..n][..n - 1] == opts[..n - 1];
    }
  }

  /** An option-like value that does harm leaves a name blank that should not be. */
  lemma HarmShows(opts: seq<(string, string)>, i: nat)
    requires i < |opts| && IsOption(opts[i].1)
    requires
      var taken := opts[i].1[2..];
      !SetLater(opts, i, opts[i].0) || !(SetLater(opts, i, taken) || Lookup(LastWins(opts[..i]), taken) == Some(""))
    ensures Read(opts, |opts|) != LastWins(opts)
  {
    var (name, value) := opts[i];
    var harmed := if SetLater(opts, i, name) then value[2..] else name;
    assert opts[..i + 1][..i] == opts[..i] && opts[..|opts|] == opts;
    StaysBlank(opts, i + 1, |opts|, harmed);
    StaysSet(opts, i + 1, |opts|, harmed);
  }

  /**
   Rendered `--name value` pairs after a command parse to the last value of each name iff every
   value that looks like an option is made up for by the other pairs.
   */
  lemma ParsePairsIff(command: string, opts: seq<(string, string)>)
    ensures Parse([command] + Pairs(opts), 1, map[]) == LastWins(opts) <==> Recovers(opts)
  {
    var n := |opts|;
    ParseReads(command, opts, n);
    assert Parse([command] + Pairs(opts), 1, map[]) == Read(opts, n);
    if Recovers(opts) {
      forall name ensures Lookup(Read(opts, n), name) == Lookup(LastWins(opts), name) {
        ReadsRight(opts, n, name);
        assert opts[..n] == opts;
      }
      SameLookups(Read(opts, n), LastWins(opts));
    } else {
      var i :| 0 <= i < n && IsOption(opts[i].1)
            && !(SetLater(opts, i, opts[i].0)
                 && (SetLater(opts, i, opts[i].1[2..]) || Lookup(LastWins(opts[..i]), opts[i].1[2..]) == Some("")));
      HarmShows(opts, i);
    }
  }

  lemma SameLookups(m: map<string, string>, m': map<string, string>)
    requires forall k :: Lookup(m, k) == Lookup(m', k)
    ensures m == m'
  {
    forall k ensures k in m <==> k in m' {
      assert Lookup(m, k) == Lookup(m', k);
    }
    forall k | k in m ensures m[k] == m'[k] {
      assert Lookup(m, k) == Lookup(m', k);
    }
  }

  /** Typed with quotes, split and parsed: a command and its options come back under the same condition. */
  lemma CommandLineIff(command: string, opts: seq<(string, string)>)
    requires forall a :: a in [command] + Pairs(opts) ==> Token(a)
    ensures Parse(Split(Render([command] + Pairs(opts))), 1, map[]) == LastWins(opts) <==> Recovers(opts)
  {
    SplitRenderIff([command] + Pairs(opts));
    ParsePairsIff(command, opts);
  }
}

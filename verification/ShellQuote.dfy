/** Shell quoting and the test-runner command line
    (daemon/src/cli/affected_tests.ts), read back by the token rules of the
    POSIX Shell Command Language, sections 2.2.1, 2.2.2 and 2.3. */
module ShellQuote {
  import opened Common

  // ---------------------------------------------------------------- quoting

  predicate IsSafe(c: char) {
    'A' <= c <= 'Z' || 'a' <= c <= 'z' || '0' <= c <= '9' || c in "_-./:@"
  }

  /** The whole argument matches the safe pattern, which needs one character. */
  predicate IsPlain(arg: string) {
    arg != "" && forall i :: 0 <= i < |arg| ==> IsSafe(arg[i])
  }

  /** The first `n` characters, each `'` replaced by `'\''`. */
  function Escape(arg: string, n: nat): string
    requires n <= |arg|
  {
    if n == 0 then "" else Escape(arg, n - 1) + (if arg[n - 1] == '\'' then "'\\''" else [arg[n - 1]])
  }

  function Quote(arg: string): string {
    if IsPlain(arg) then arg else "'" + Escape(arg, |arg|) + "'"
  }

  /** The first `n` texts with single spaces between them. */
  function Join(texts: seq<string>, n: nat): string
    requires n <= |texts|
  {
    if n == 0 then "" else if n == 1 then texts[0] else Join(texts, n - 1) + " " + texts[n - 1]
  }

  function QuoteAll(args: seq<string>): seq<string> {
    seq(|args|, i requires 0 <= i < |args| => Quote(args[i]))
  }

  // ---------------------------------------------------------------- the shell's tokenizer

  datatype Mode = Between | InWord | Quoted | Escaped(inWord: bool)

  datatype State = State(words: seq<string>, word: string, mode: Mode)

  /** One character. Unquoted characters that could be special to the shell,
      and NUL anywhere, are outside the fragment: `None`. */
  function Unquoted(s: State, c: char): Option<State>
    requires s.mode == Between || s.mode == InWord
  {
    if c == ' ' || c == '\t' then
      Some(if s.mode == InWord then State(s.words + [s.word], "", Between) else s)
    else if c == '\'' then Some(s.(mode := Quoted))
    else if c == '\\' then Some(s.(mode := Escaped(s.mode == InWord)))
    else if IsSafe(c) then Some(s.(word := s.word + [c], mode := InWord))
    else None
  }

  function Step(s: State, c: char): Option<State> {
    if c == '\0' then None
    else
      match s.mode
      case Quoted => Some(if c == '\'' then s.(mode := InWord) else s.(word := s.word + [c]))
      case Escaped(inWord) =>
        Some(if c == '\n' then s.(mode := if inWord then InWord else Between)
             else s.(word := s.word + [c], mode := InWord))
      case _ => Unquoted(s, c)
  }

  type Stepper = (State, char) -> Option<State>

  /** The state after the first `n` characters of `line`. */
  function After(step: Stepper, s: State, line: string, n: nat): Option<State>
    requires n <= |line|
  {
    if n == 0 then Some(s)
    else
      var before := After(step, s, line, n - 1);
      if before.None? then None else step(before.value, line[n - 1])
  }

  function Finish(s: State): Option<seq<string>> {
    match s.mode
    case Between => Some(s.words)
    case InWord => Some(s.words + [s.word])
    case _ => None
  }

  /** The words of a line. */
  function SplitBy(step: Stepper, line: string): Option<seq<string>> {
    var end := After(step, State([], "", Between), line, |line|);
    if end.None? then None else Finish(end.value)
  }

  function Split(line: string): Option<seq<string>> {
    SplitBy(Step, line)
  }

  // ---------------------------------------------------------------- reading back

  lemma {:induction false} AfterLeft(step: Stepper, s: State, a: string, b: string, n: nat)
    requires n <= |a|
    ensures After(step, s, a + b, n) == After(step, s, a, n)
  {
    if n > 0 {
      AfterLeft(step, s, a, b, n - 1);
    }
  }

  lemma {:induction false} AfterConcat(step: Stepper, s: State, a: string, mid: State, b: string, n: nat)
    requires n <= |b| && After(step, s, a, |a|) == Some(mid)
    ensures After(step, s, a + b, |a| + n) == After(step, mid, b, n)
  {
    if n == 0 {
      AfterLeft(step, s, a, b, |a|);
    } else {
      AfterConcat(step, s, a, mid, b, n - 1);
      assert (a + b)[|a| + n - 1] == b[n - 1];
    }
  }

  lemma {:induction false} ReadPlain(words: seq<string>, arg: string, n: nat)
    requires n <= |arg| && IsPlain(arg)
    ensures After(Step, State(words, "", Between), arg, n)
         == Some(State(words, arg[..n], if n == 0 then Between else InWord))
  {
    if n > 0 {
      ReadPlain(words, arg, n - 1);
      assert arg[..n] == arg[..n - 1] + [arg[n - 1]];
    }
  }

  lemma ReadEscapedQuote(words: seq<string>, word: string)
    ensures After(Step, State(words, word, Quoted), "'\\''", 4) == Some(State(words, word + ['\''], Quoted))
  {
    var t: string := "'\\''";
    var s := State(words, word, Quoted);
    assert After(Step, s, t, 1) == Some(State(words, word, InWord));
    assert After(Step, s, t, 2) == Some(State(words, word, Escaped(true)));
    assert After(Step, s, t, 3) == Some(State(words, word + ['\''], InWord));
  }

  lemma {:induction false} ReadEscape(words: seq<string>, arg: string, n: nat)
    requires n <= |arg| && NulFree(arg)
    ensures After(Step, State(words, "", Quoted), Escape(arg, n), |Escape(arg, n)|) == Some(State(words, arg[..n], Quoted))
  {
    if n > 0 {
      var s, c := State(words, "", Quoted), arg[n - 1];
      var front, last := Escape(arg, n - 1), if c == '\'' then "'\\''" else [c];
      var mid := State(words, arg[..n - 1], Quoted);
      ReadEscape(words, arg, n - 1);
      AfterConcat(Step, s, front, mid, last, |last|);
      assert arg[..n] == arg[..n - 1] + [c];
      if c == '\'' {
        ReadEscapedQuote(words, arg[..n - 1]);
      } else {
        assert After(Step, mid, [c], 1) == Step(mid, c);
      }
    }
  }

  /** Between words, `text` is read as the one word `word`. */
  ghost predicate ReadsAs(step: Stepper, text: string, word: string) {
    forall words {:trigger After(step, State(words, "", Between), text, |text|)} :: After(step, State(words, "", Between), text, |text|) == Some(State(words, word, InWord))
  }

  lemma QuoteReadsAs(arg: string)
    requires NulFree(arg)
    ensures ReadsAs(Step, Quote(arg), arg)
  {
    forall words
      ensures After(Step, State(words, "", Between), Quote(arg), |Quote(arg)|) == Some(State(words, arg, InWord))
    {
      if IsPlain(arg) {
        ReadPlain(words, arg, |arg|);
        assert arg[..|arg|] == arg;
      } else {
        ReadQuoted(words, arg);
      }
    }
  }

  lemma ReadQuoted(words: seq<string>, arg: string)
    requires NulFree(arg)
    ensures var text := "'" + Escape(arg, |arg|) + "'";
      After(Step, State(words, "", Between), text, |text|) == Some(State(words, arg, InWord))
  {
    var s, q: string, body := State(words, "", Between), "'", Escape(arg, |arg|);
    var s1, s2 := State(words, "", Quoted), State(words, arg, Quoted);
    assert After(Step, s, q, 1) == Some(s1);
    ReadEscape(words, arg, |arg|);
    assert arg[..|arg|] == arg;
    AfterConcat(Step, s, q, s1, body, |body|);
    AfterConcat(Step, s, q + body, s2, q, 1);
    assert After(Step, s2, q, 1) == Step(s2, '\'');
  }

  ghost predicate BlankEndsWord(step: Stepper) {
    forall words, word {:trigger step(State(words, word, InWord), ' ')} :: step(State(words, word, InWord), ' ') == Some(State(words + [word], "", Between))
  }

  lemma {:induction false} ReadJoin(step: Stepper, texts: seq<string>, words: seq<string>, n: nat)
    requires 0 < n <= |texts| == |words| && forall i :: 0 <= i < n ==> ReadsAs(step, texts[i], words[i])
    requires BlankEndsWord(step)
    ensures After(step, State([], "", Between), Join(texts, n), |Join(texts, n)|)
         == Some(State(words[..n - 1], words[n - 1], InWord))
  {
    var s := State([], "", Between);
    if n == 1 {
      assert ReadsAs(step, texts[0], words[0]);
    } else {
      var front, blank: string, last := Join(texts, n - 1), " ", texts[n - 1];
      var s1, s2 := State(words[..n - 2], words[n - 2], InWord), State(words[..n - 1], "", Between);
      ReadJoin(step, texts, words, n - 1);
      assert words[..n - 1] == words[..n - 2] + [words[n - 2]];
      assert After(step, s1, blank, 1) == step(s1, ' ') == Some(s2);
      AfterConcat(step, s, front, s1, blank, 1);
      assert ReadsAs(step, last, words[n - 1]);
      AfterConcat(step, s, front + blank, s2, last, |last|);
    }
  }

  lemma FinishWord(step: Stepper, line: string, words: seq<string>, word: string)
    requires After(step, State([], "", Between), line, |line|) == Some(State(words, word, InWord))
    ensures SplitBy(step, line) == Some(words + [word])
  {
  }

  lemma SplitJoin(step: Stepper, texts: seq<string>, words: seq<string>)
    requires |texts| == |words| && forall i :: 0 <= i < |texts| ==> ReadsAs(step, texts[i], words[i])
    requires BlankEndsWord(step)
    ensures SplitBy(step, Join(texts, |texts|)) == Some(words)
  {
    if texts == [] {
      assert After(step, State([], "", Between), "", 0) == Some(State([], "", Between));
    } else {
      ReadJoin(step, texts, words, |texts|);
      FinishWord(step, Join(texts, |texts|), words[..|words| - 1], words[|words| - 1]);
      assert words == words[..|words| - 1] + [words[|words| - 1]];
    }
  }

  /** Splitting the quoted and joined arguments gives back exactly the arguments. */
  lemma SplitUndoesQuoting(args: seq<string>)
    requires forall i :: 0 <= i < |args| ==> NulFree(args[i])
    ensures Split(Join(QuoteAll(args), |args|)) == Some(args)
  {
    forall i | 0 <= i < |args|
      ensures ReadsAs(Step, QuoteAll(args)[i], args[i])
    {
      QuoteReadsAs(args[i]);
    }
    SplitJoin(Step, QuoteAll(args), args);
  }

  // ---------------------------------------------------------------- runner arguments

  datatype Test = Test(runner: string, runnable: Option<string>)

  datatype EmitRunner = Vitest | Bun

  predicate Contributes(t: Test) {
    t.runner == "vitest" && t.runnable.Some?
  }

  function Name(runner: EmitRunner): string {
    match runner case Vitest => "vitest" case Bun => "bun"
  }

  function Subcommand(runner: EmitRunner): string {
    match runner case Vitest => "run" case Bun => "test"
  }

  function Contributing(tests: seq<Test>, n: nat): nat
    requires n <= |tests|
  {
    if n == 0 then 0 else Contributing(tests, n - 1) + (if Contributes(tests[n - 1]) then 1 else 0)
  }

  /** The files of the first `n` tests, each where it first appears. */
  function Files(tests: seq<Test>, n: nat): seq<string>
    requires n <= |tests|
  {
    if n == 0 then []
    else
      var files, t := Files(tests, n - 1), tests[n - 1];
      if Contributes(t) && t.runnable.value !in files then files + [t.runnable.value] else files
  }

  method RunnerInvocationArgs(runner: EmitRunner, tests: seq<Test>) returns (args: seq<string>, skipped: nat)
    ensures args == if Contributing(tests, |tests|) == 0 then [] else [Subcommand(runner)] + Files(tests, |tests|)
    ensures skipped + Contributing(tests, |tests|) == |tests|
  {
    var files: seq<string>, seen: set<string> := [], {};
    skipped := 0;
    for i := 0 to |tests|
      invariant files == Files(tests, i) && forall f :: f in seen <==> f in files
      invariant skipped + Contributing(tests, i) == i
      invariant files == [] <==> Contributing(tests, i) == 0
    {
      var t := tests[i];
      if t.runner != "vitest" || t.runnable.None? {
        skipped := skipped + 1;
        continue;
      }
      var file := t.runnable.value;
      if file !in seen {
        seen, files := seen + {file}, files + [file];
      }
    }
    args := if |files| > 0 then [Subcommand(runner)] + files else [];
  }

  /** `file` is the runnable of a contributing test, for the first time at `i`. */
  ghost predicate FirstAt(tests: seq<Test>, file: string, i: nat) {
    && i < |tests| && Contributes(tests[i]) && tests[i].runnable.value == file
    && forall j :: 0 <= j < i && Contributes(tests[j]) ==> tests[j].runnable.value != file
  }

  /** The listed files are those of the contributing tests, and they are in
      the order of their first appearance, so none is listed twice. */
  lemma {:induction false} FilesAreFirsts(tests: seq<Test>, n: nat) returns (at: seq<nat>)
    requires n <= |tests|
    ensures |at| == |Files(tests, n)|
    ensures forall k :: 0 <= k < |at| ==> at[k] < n && FirstAt(tests, Files(tests, n)[k], at[k])
    ensures forall k, l :: 0 <= k < l < |at| ==> at[k] < at[l]
    ensures forall i :: 0 <= i < n && Contributes(tests[i]) ==> tests[i].runnable.value in Files(tests, n)
  {
    at := [];
    if n > 0 {
      at := FilesAreFirsts(tests, n - 1);
      var files, t := Files(tests, n - 1), tests[n - 1];
      if Contributes(t) && t.runnable.value !in files {
        assert FirstAt(tests, t.runnable.value, n - 1);
        at := at + [n - 1];
      }
    }
  }

  lemma NamesArePlain(runner: EmitRunner)
    ensures IsPlain(Name(runner)) && NulFree(Name(runner)) && NulFree(Subcommand(runner))
  {
  }

  lemma FileIsNulFree(tests: seq<Test>, k: nat)
    requires forall i :: 0 <= i < |tests| && tests[i].runnable.Some? ==> NulFree(tests[i].runnable.value)
    requires k < |Files(tests, |tests|)|
    ensures NulFree(Files(tests, |tests|)[k])
  {
    var at := FilesAreFirsts(tests, |tests|);
    assert FirstAt(tests, Files(tests, |tests|)[k], at[k]);
  }

  lemma CommandWordsAreNulFree(runner: EmitRunner, tests: seq<Test>)
    requires forall i :: 0 <= i < |tests| && tests[i].runnable.Some? ==> NulFree(tests[i].runnable.value)
    ensures var words := [Name(runner), Subcommand(runner)] + Files(tests, |tests|);
      forall i :: 0 <= i < |words| ==> NulFree(words[i])
  {
    var words := [Name(runner), Subcommand(runner)] + Files(tests, |tests|);
    NamesArePlain(runner);
    forall i | 0 <= i < |words|
      ensures NulFree(words[i])
    {
      if i >= 2 {
        FileIsNulFree(tests, i - 2);
      }
    }
  }

  /** The pasted command runs the runner with exactly the chosen files. */
  method RunnerCommand(runner: EmitRunner, tests: seq<Test>) returns (line: Option<string>)
    requires forall i :: 0 <= i < |tests| && tests[i].runnable.Some? ==> NulFree(tests[i].runnable.value)
    ensures line.None? <==> Contributing(tests, |tests|) == 0
    ensures line.Some? ==> Split(line.value) == Some([Name(runner), Subcommand(runner)] + Files(tests, |tests|))
  {
    var args, skipped := RunnerInvocationArgs(runner, tests);
    if |args| == 0 {
      return None;
    }
    var texts := [Name(runner)] + QuoteAll(args);
    ghost var words := [Name(runner)] + args;
    NamesArePlain(runner);
    assert texts == QuoteAll(words);
    CommandWordsAreNulFree(runner, tests);
    assert words == [Name(runner), Subcommand(runner)] + Files(tests, |tests|);
    SplitUndoesQuoting(words);
    line := Some(Join(texts, |texts|));
  }
}

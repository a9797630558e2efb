/**
  Quoting a script for the shell, `internal/burrow/nibble/tools_exec.go`, against the token
  recognition of the POSIX Shell Command Language (IEEE Std 1003.1, sections 2.2 and 2.3).
*/
module Shell {

  // ---------------------------------------------------------------- the shell's side

  datatype Mode = Between | Plain | Single | Double

  /** `Special`: an unquoted character that means more to the shell than word splitting. */
  datatype Lexed = Words(words: seq<string>) | Unterminated | Special

  predicate IsBlank(c: char) {
    c == ' ' || c == '\t'
  }

  /** Section 2.2: the characters that must be, or sometimes must be, quoted to stand for themselves. */
  predicate IsSpecial(c: char) {
    c in "|&;<>()$`\n*?[]#~=%!{}"
  }

  /** Section 2.2.3: where a backslash keeps its role inside double quotes. */
  predicate EscapedInDouble(c: char) {
    c in "$`\"\\\n"
  }

  function Prepend(word: string, rest: Lexed): Lexed {
    match rest
    case Words(words) => Words([word] + words)
    case other => other
  }

  /** The words of `input`, given the quoting mode and the part of the current word read so far. */
  function Lex(input: string, mode: Mode, word: string): Lexed {
    if input == "" then
      match mode
      case Between => Words([])
      case Plain => Words([word])
      case Single => Unterminated
      case Double => Unterminated
    else
      var c, rest := input[0], input[1..];
      match mode
      case Single =>
        if c == '\'' then Lex(rest, Plain, word) else Lex(rest, Single, word + [c])
      case Double =>
        if c == '\"' then Lex(rest, Plain, word)
        else if c == '$' || c == '`' then Special
        else if c == '\\' && rest != "" && EscapedInDouble(rest[0]) then
          Lex(rest[1..], Double, if rest[0] == '\n' then word else word + [rest[0]])
        else Lex(rest, Double, word + [c])
      case _ =>
        if IsBlank(c) then
          if mode == Between then Lex(rest, Between, "") else Prepend(word, Lex(rest, Between, ""))
        else if c == '\'' then Lex(rest, Single, word)
        else if c == '\"' then Lex(rest, Double, word)
        else if c == '\\' then
          if rest == "" then Unterminated
          else if rest[0] == '\n' then Lex(rest[1..], mode, word)
          else Lex(rest[1..], Plain, word + [rest[0]])
        else if IsSpecial(c) then Special
        else Lex(rest, Plain, word + [c])
  }

  function ShellWords(command: string): Lexed {
    Lex(command, Between, "")
  }

  // ---------------------------------------------------------------- the program's side

  /** `strings.ReplaceAll(s, "'", "'\"'\"'")` */
  function EscapeQuotes(s: string): string {
    if s == "" then ""
    else (if s[0] == '\'' then "'\"'\"'" else [s[0]]) + EscapeQuotes(s[1..])
  }

  function ShellQuote(s: string): string {
    "'" + EscapeQuotes(s) + "'"
  }

  datatype Command = Command(text: string) | ScriptRequired

  /** What `bashHandler` hands to `sh -c`. */
  function BashCommand(script: string): Command {
    if script == "" then ScriptRequired else Command("bash -c " + ShellQuote(script))
  }

  // ---------------------------------------------------------------- they agree

  lemma {:induction false} LexEscaped(s: string, rest: string, word: string)
    ensures Lex(EscapeQuotes(s) + "'" + rest, Single, word) == Lex(rest, Plain, word + s)
    decreases |s|
  {
    if s == "" {
      assert (EscapeQuotes(s) + "'" + rest)[1..] == rest;
      assert word + s == word;
    } else {
      var c, tail := s[0], EscapeQuotes(s[1..]) + "'" + rest;
      LexEscaped(s[1..], rest, word + [c]);
      assert word + [c] + s[1..] == word + s;
      if c == '\'' {
        assert EscapeQuotes(s) + "'" + rest == "'\"'\"'" + tail;
        LexQuotedQuote(tail, word);
      } else {
        LexOrdinary(c, tail, word);
        assert EscapeQuotes(s) + "'" + rest == [c] + tail;
      }
    }
  }

  lemma LexOrdinary(c: char, tail: string, word: string)
    requires c != '\''
    ensures Lex([c] + tail, Single, word) == Lex(tail, Single, word + [c])
  {
    assert ([c] + tail)[1..] == tail;
  }

  /** The five characters that stand for a single quote: leave, quote it doubly, re-enter. */
  lemma LexQuotedQuote(tail: string, word: string)
    ensures Lex("'\"'\"'" + tail, Single, word) == Lex(tail, Single, word + ['\''])
  {
    assert ("'\"'\"'" + tail)[1..] == "\"'\"'" + tail;
    assert ("\"'\"'" + tail)[1..] == "'\"'" + tail;
    assert ("'\"'" + tail)[1..] == "\"'" + tail;
    assert ("\"'" + tail)[1..] == "'" + tail;
    assert ("'" + tail)[1..] == tail;
    assert Lex("'\"'\"'" + tail, Single, word) == Lex("\"'\"'" + tail, Plain, word);
    assert Lex("\"'\"'" + tail, Plain, word) == Lex("'\"'" + tail, Double, word);
    assert Lex("'\"'" + tail, Double, word) == Lex("\"'" + tail, Double, word + ['\'']);
    assert Lex("\"'" + tail, Double, word + ['\'']) == Lex("'" + tail, Plain, word + ['\'']);
  }

  /** Wherever a word may start, a quoted string is read back whole, whatever characters it has. */
  lemma QuotedStringIsOneWord(s: string, rest: string, mode: Mode, word: string)
    requires mode.Between? || mode.Plain?
    ensures Lex(ShellQuote(s) + rest, mode, word) == Lex(rest, Plain, word + s)
  {
    var input := ShellQuote(s) + rest;
    assert input[1..] == EscapeQuotes(s) + "'" + rest;
    LexEscaped(s, rest, word);
  }

  predicate IsPlainWord(w: string) {
    forall c | c in w :: !IsBlank(c) && !IsSpecial(c) && c != '\'' && c != '\"' && c != '\\'
  }

  lemma RestIsPlainWord(w: string)
    requires IsPlainWord(w) && w != ""
    ensures IsPlainWord(w[1..])
  {
    assert forall c | c in w[1..] :: c in w;
  }

  lemma {:induction false} LexPlain(w: string, rest: string, word: string)
    requires IsPlainWord(w)
    ensures Lex(w + " " + rest, Plain, word) == Prepend(word + w, Lex(rest, Between, ""))
    decreases |w|
  {
    var input := w + " " + rest;
    if w == "" {
      assert input[1..] == rest && word + w == word;
    } else {
      assert input[0] == w[0] && w[0] in w;
      assert input[1..] == w[1..] + " " + rest;
      RestIsPlainWord(w);
      LexPlain(w[1..], rest, word + [w[0]]);
      assert word + [w[0]] + w[1..] == word + w;
    }
  }

  lemma LexWord(w: string, rest: string, word: string)
    requires w != "" && IsPlainWord(w)
    ensures Lex(w + " " + rest, Between, word) == Prepend(word + w, Lex(rest, Between, ""))
  {
    var input := w + " " + rest;
    assert input[0] == w[0] && w[0] in w;
    assert input[1..] == w[1..] + " " + rest;
    RestIsPlainWord(w);
    LexPlain(w[1..], rest, word + [w[0]]);
    assert word + [w[0]] + w[1..] == word + w;
  }

  lemma LexTwoPlainWords(v: string, w: string, s: string)
    requires v != "" && IsPlainWord(v) && w != "" && IsPlainWord(w)
    ensures ShellWords(v + " " + (w + " " + ShellQuote(s))) == Words([v, w, s])
  {
    LexLastArgument(s);
    LexWord(w, ShellQuote(s), "");
    LexWord(v, w + " " + ShellQuote(s), "");
    assert "" + v == v && "" + w == w;
    assert [v] + ([w] + [s]) == [v, w, s];
  }

  lemma CommandParts(quoted: string)
    ensures "bash -c " + quoted == "bash" + " " + ("-c" + " " + quoted)
    ensures IsPlainWord("bash") && IsPlainWord("-c")
  {
  }

  /** The shell splits the command of the bash tool into exactly `bash`, `-c` and the script; without a script there is none. */
  lemma BashRunsTheScript(script: string)
    ensures if script == "" then BashCommand(script) == ScriptRequired
            else BashCommand(script).Command? && ShellWords(BashCommand(script).text) == Words(["bash", "-c", script])
  {
    if script == "" {
      return;
    }
    CommandParts(ShellQuote(script));
    LexTwoPlainWords("bash", "-c", script);
    assert BashCommand(script).text == "bash -c " + ShellQuote(script);
  }

  lemma LexLastArgument(s: string)
    ensures ShellWords(ShellQuote(s)) == Words([s])
  {
    QuotedStringIsOneWord(s, "", Between, "");
    assert ShellQuote(s) + "" == ShellQuote(s) && "" + s == s;
  }

  // ---------------------------------------------------------------- any number of arguments

  function QuoteAll(args: seq<string>): string {
    if args == [] then "" else ShellQuote(args[0]) + " " + QuoteAll(args[1..])
  }

  /** Quoting is lossless for whole argument lists: distinct lists never become the same command. */
  lemma {:induction false} QuotedArgumentsAreRecovered(args: seq<string>)
    ensures ShellWords(QuoteAll(args)) == Words(args)
  {
    if args == [] {
    } else {
      var rest := QuoteAll(args[1..]);
      QuotedStringIsOneWord(args[0], " " + rest, Between, "");
      assert QuoteAll(args) == ShellQuote(args[0]) + (" " + rest);
      assert (" " + rest)[1..] == rest;
      assert "" + args[0] == args[0];
      QuotedArgumentsAreRecovered(args[1..]);
      assert [args[0]] + args[1..] == args;
    }
  }
}

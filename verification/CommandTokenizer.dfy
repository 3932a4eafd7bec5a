/** The tokenizer of control commands: quotes delimit, a backslash only escapes a matching quote. */
module CommandTokenizer {
  import opened Wrappers

  datatype TokenError = NulByte | UnterminatedQuote

  type Tokens = Result<seq<string>, TokenError>

  predicate IsSpace(c: char) {
    c == ' ' || c == '\t' || c == '\n' || c == '\r' || c == '\U{000B}' || c == '\U{000C}'
  }

  // Where the scan stands; `quote` is the open quote.
  datatype Scanner = Scanner(arguments: seq<string>, token: string, quote: Option<char>, started: bool)

  const START: Scanner := Scanner([], "", None, false)

  function Push(s: Scanner, c: char): Scanner {
    s.(token := s.token + [c])
  }

  function EndToken(s: Scanner): Scanner {
    if s.started then s.(arguments := s.arguments + [s.token], token := "", started := false) else s
  }

  // One character that is not part of an escape.
  function Step(s: Scanner, c: char): Scanner {
    if s.quote.Some? then (if c == s.quote.value then s.(quote := None) else Push(s, c))
    else if c == '\'' || c == '"' then s.(quote := Some(c), started := true)
    else if IsSpace(c) then EndToken(s)
    else Push(s, c).(started := true)
  }

  predicate Escapes(s: Scanner, line: string) {
    |line| > 1 && line[0] == '\\' && s.quote == Some(line[1])
  }

  // The rest of a line, from where the scan stands.
  function Scan(line: string, s: Scanner): Tokens
    decreases |line|
  {
    if line == [] then if s.quote.Some? then Failure(UnterminatedQuote) else Success(EndToken(s).arguments)
    else if line[0] == '\0' then Failure(NulByte)
    else if Escapes(s, line) then Scan(line[2..], Push(s, line[1]))
    else Scan(line[1..], Step(s, line[0]))
  }

  method Tokenize(line: string) returns (r: Tokens)
    ensures r == Scan(line, START)
  {
    var s := START;
    var index := 0;
    while index < |line|
      invariant 0 <= index <= |line| && Scan(line[index..], s) == Scan(line, START)
    {
      var c := line[index];
      if c == '\0' { return Failure(NulByte); }
      assert line[index..][1..] == line[index + 1..];
      if c == '\\' && s.quote.Some? && index + 1 < |line| && line[index + 1] == s.quote.value {
        assert line[index..][2..] == line[index + 2..];
        index := index + 1;
        s := s.(token := s.token + [line[index]]);
      } else if s.quote.Some? {
        if c == s.quote.value { s := s.(quote := None); } else { s := s.(token := s.token + [c]); }
      } else if c == '\'' || c == '"' {
        s := s.(quote := Some(c), started := true);
      } else if IsSpace(c) {
        if s.started { s := s.(arguments := s.arguments + [s.token], token := "", started := false); }
      } else {
        s := s.(token := s.token + [c], started := true);
      }
      index := index + 1;
    }
    if s.quote.Some? { return Failure(UnterminatedQuote); }
    var arguments := s.arguments;
    if s.started { arguments := arguments + [s.token]; }
    return Success(arguments);
  }

  // ---- Composition ----

  // Where the scan stands after the line, if it got that far.
  function Reach(line: string, s: Scanner): Option<Scanner>
    decreases |line|
  {
    if line == [] then Some(s)
    else if line[0] == '\0' then None
    else if Escapes(s, line) then Reach(line[2..], Push(s, line[1]))
    else Reach(line[1..], Step(s, line[0]))
  }

  predicate Tidy(s: Scanner) {
    (s.quote.Some? ==> s.started && s.quote.value != '\\') && (!s.started ==> s.token == "")
  }

  lemma {:induction false} ReachesEnd(line: string, s: Scanner)
    requires Scan(line, s).Success? && Tidy(s)
    ensures Reach(line, s).Some? && Reach(line, s).value.quote.None? && Tidy(Reach(line, s).value)
    ensures Scan(line, s) == Success(EndToken(Reach(line, s).value).arguments)
    decreases |line|
  {
    if line != [] {
      if Escapes(s, line) { ReachesEnd(line[2..], Push(s, line[1])); } else { ReachesEnd(line[1..], Step(s, line[0])); }
    }
  }

  // A line after which no quote is open does not care what follows it.
  lemma {:induction false} ScanThrough(line: string, rest: string, s: Scanner)
    requires Tidy(s) && Reach(line, s).Some? && Reach(line, s).value.quote.None?
    ensures Scan(line + rest, s) == Scan(rest, Reach(line, s).value)
    decreases |line|
  {
    if line == [] {
      assert line + rest == rest;
    } else {
      var all := line + rest;
      assert all[1..] == line[1..] + rest;
      if Escapes(s, line) {
        assert all[2..] == line[2..] + rest;
        ScanThrough(line[2..], rest, Push(s, line[1]));
      } else {
        if |line| == 1 {
          assert line[1..] == [] && Reach(line, s) == Some(Step(s, line[0]));
        }
        assert !Escapes(s, all);
        ScanThrough(line[1..], rest, Step(s, line[0]));
      }
    }
  }

  // Tokens found earlier stay in front.
  function After(earlier: seq<string>, r: Tokens): Tokens {
    if r.Success? then Success(earlier + r.value) else r
  }

  lemma {:induction false} ScanAfter(line: string, s: Scanner, earlier: seq<string>)
    ensures Scan(line, s.(arguments := earlier + s.arguments)) == After(earlier, Scan(line, s))
    decreases |line|
  {
    var t := s.(arguments := earlier + s.arguments);
    if line == [] {
      assert earlier + s.arguments + [s.token] == earlier + (s.arguments + [s.token]);
    } else if line[0] != '\0' {
      if Escapes(s, line) {
        ScanAfter(line[2..], Push(s, line[1]), earlier);
      } else {
        assert earlier + s.arguments + [s.token] == earlier + (s.arguments + [s.token]);
        assert Step(t, line[0]) == Step(s, line[0]).(arguments := earlier + Step(s, line[0]).arguments);
        ScanAfter(line[1..], Step(s, line[0]), earlier);
      }
    }
  }

  /** Two lines that tokenize, with a space in between, tokenize to the two results in order. */
  lemma Composes(a: string, b: string)
    requires Scan(a, START).Success? && Scan(b, START).Success?
    ensures Scan(a + " " + b, START) == Success(Scan(a, START).value + Scan(b, START).value)
  {
    hide Scan;
    assert a + " " + b == a + (" " + b);
    GapThen(a, " ", b);
  }

  // ---- Completeness ----

  // A quoted form of one character: bare, or in the quotes that are not the character.
  function QuoteChar(c: char): string {
    if c == '\\' then "\\" else if c == '"' then "'\"'" else ['"', c, '"']
  }

  function QuoteChars(argument: string): string {
    if argument == [] then "" else QuoteChar(argument[0]) + QuoteChars(argument[1..])
  }

  // The empty quotes in front make a token of an empty argument.
  function Quote(argument: string): string {
    "\"\"" + QuoteChars(argument)
  }

  function QuoteAll(arguments: seq<string>): string {
    if arguments == [] then "" else Quote(arguments[0]) + " " + QuoteAll(arguments[1..])
  }

  predicate NulFree(s: string) {
    '\0' !in s
  }

  // A character between quotes that are neither it nor a backslash.
  lemma DelimitedScans(q: char, c: char, rest: string, s: Scanner)
    requires (q == '"' || q == '\'') && c != '\0' && c != q && c != '\\' && s.quote.None? && s.started
    ensures Scan([q, c, q] + rest, s) == Scan(rest, Push(s, c))
  {
    var line := [q, c, q] + rest;
    var one, two := line[1..], line[2..];
    assert one[1..] == two && two[1..] == rest && one[0] == c && two[0] == q;
    var open := s.(quote := Some(q));
    assert Scan(line, s) == Scan(one, open);
    assert Scan(one, open) == Scan(two, Push(open, c));
    assert Scan(two, Push(open, c)) == Scan(rest, Push(s, c));
  }

  lemma QuotedCharScans(c: char, rest: string, s: Scanner)
    requires c != '\0' && s.quote.None? && s.started
    ensures Scan(QuoteChar(c) + rest, s) == Scan(rest, Push(s, c))
  {
    if c == '\\' {
      assert (QuoteChar(c) + rest)[1..] == rest;
    } else {
      DelimitedScans(if c == '"' then '\'' else '"', c, rest, s);
    }
  }

  lemma {:induction false} QuotedCharsScan(argument: string, rest: string, s: Scanner)
    requires NulFree(argument) && s.quote.None? && s.started
    ensures Scan(QuoteChars(argument) + rest, s) == Scan(rest, s.(token := s.token + argument))
    decreases |argument|
  {
    if argument == [] {
      assert QuoteChars(argument) + rest == rest && s.token + argument == s.token;
    } else {
      var more := QuoteChars(argument[1..]) + rest;
      assert QuoteChars(argument) + rest == QuoteChar(argument[0]) + more;
      QuotedCharScans(argument[0], more, s);
      QuotedCharsScan(argument[1..], rest, Push(s, argument[0]));
      assert s.token + [argument[0]] + argument[1..] == s.token + argument;
    }
  }

  lemma QuotedScans(argument: string)
    requires NulFree(argument)
    ensures Scan(Quote(argument), START) == Success([argument])
  {
    var line := Quote(argument);
    var open := START.(started := true);
    var one, two := line[1..], line[2..];
    assert one[1..] == two && two == QuoteChars(argument) + [];
    assert Scan(line, START) == Scan(one, Step(START, '"'));
    assert Scan(one, Step(START, '"')) == Scan(two, open);
    QuotedCharsScan(argument, [], open);
    assert open.token + argument == argument && open.arguments + [argument] == [argument];
  }

  /** Every list of NUL-free arguments has a quoted form that tokenizes back to exactly that list. */
  lemma {:induction false} QuotingRoundTrips(arguments: seq<string>)
    requires forall i :: 0 <= i < |arguments| ==> NulFree(arguments[i])
    ensures Scan(QuoteAll(arguments), START) == Success(arguments)
    decreases |arguments|
  {
    if arguments != [] {
      QuotedScans(arguments[0]);
      QuotingRoundTrips(arguments[1..]);
      Composes(Quote(arguments[0]), QuoteAll(arguments[1..]));
      assert [arguments[0]] + arguments[1..] == arguments;
    }
  }

  // ---- The obvious quoting ----

  // Double quotes around the argument, a backslash before each double quote in it.
  function Escaped(argument: string): string {
    if argument == [] then ""
    else (if argument[0] == '"' then "\\\"" else [argument[0]]) + Escaped(argument[1..])
  }

  function Plain(argument: string): string {
    "\"" + Escaped(argument) + "\""
  }

  predicate EndsInBackslash(s: string) {
    s != [] && s[|s| - 1] == '\\'
  }

  lemma {:induction false} EscapedScans(argument: string, s: Scanner)
    requires s.quote == Some('"') && s.started
    ensures Scan(Escaped(argument) + "\"", s) ==
            if !NulFree(argument) then Failure(NulByte)
            else if EndsInBackslash(argument) then Failure(UnterminatedQuote)
            else Success(s.arguments + [s.token + argument])
    decreases |argument|
  {
    var line := Escaped(argument) + "\"";
    if argument == [] {
      assert line == "\"" && line[1..] == [];
      assert s.token + argument == s.token;
    } else {
      var more := Escaped(argument[1..]) + "\"";
      var c := argument[0];
      assert s.token + [c] + argument[1..] == s.token + argument;
      assert NulFree(argument) <==> c != '\0' && NulFree(argument[1..]);
      if c == '"' {
        assert line[2..] == more;
        EscapedScans(argument[1..], Push(s, c));
      } else {
        assert line[1..] == more;
        if c == '\\' && argument[1..] == [] {
          assert line == "\\\"" && line[2..] == [];
        } else {
          MoreStartsSafely(argument[1..]);
          EscapedScans(argument[1..], Push(s, c));
        }
      }
    }
  }

  // What follows a backslash inside the quotes is never a bare double quote, except at the end.
  lemma MoreStartsSafely(argument: string)
    ensures argument != [] ==> Escaped(argument) != [] && Escaped(argument)[0] != '"'
  {
  }

  /** The obvious quoting of an argument comes back exactly if the argument has no NUL and does not
      end in a backslash: there the closing quote is taken for an escaped one. */
  lemma PlainQuotingRoundTrips(argument: string)
    ensures Scan(Plain(argument), START) == Success([argument]) <==> NulFree(argument) && !EndsInBackslash(argument)
  {
    var line := Plain(argument);
    assert line[1..] == Escaped(argument) + "\"";
    assert Scan(line, START) == Scan(line[1..], Step(START, '"'));
    EscapedScans(argument, Step(START, '"'));
    assert START.token + argument == argument && START.arguments + [argument] == [argument];
  }

  // ---- Words and white space ----

  // A piece of a word: bare characters, or quoted text in which the quote itself is escaped.
  datatype Part = Bare(text: string) | Quoted(quote: char, text: string)

  predicate IsQuote(c: char) {
    c == '\'' || c == '"'
  }

  ghost predicate Proper(p: Part) {
    match p
    case Bare(text) => text != [] && NulFree(text) && forall c :: c in text ==> !IsSpace(c) && !IsQuote(c)
    case Quoted(q, text) => IsQuote(q) && NulFree(text) && !EndsInBackslash(text)
  }

  function EscapedFor(q: char, text: string): string {
    if text == [] then "" else (if text[0] == q then ['\\', q] else [text[0]]) + EscapedFor(q, text[1..])
  }

  function Written(p: Part): string {
    match p
    case Bare(text) => text
    case Quoted(q, text) => [q] + EscapedFor(q, text) + [q]
  }

  function Spelled(word: seq<Part>): string {
    if word == [] then "" else Written(word[0]) + Spelled(word[1..])
  }

  function Meant(word: seq<Part>): string {
    if word == [] then "" else word[0].text + Meant(word[1..])
  }

  ghost predicate IsWord(word: seq<Part>) {
    word != [] && forall i :: 0 <= i < |word| ==> Proper(word[i])
  }

  // The scan after some text of a token.
  function Grown(s: Scanner, text: string): Scanner {
    s.(token := s.token + text, started := true)
  }

  lemma {:induction false} BareScans(text: string, rest: string, s: Scanner)
    requires Proper(Bare(text)) && s.quote.None?
    ensures Scan(text + rest, s) == Scan(rest, Grown(s, text))
    decreases |text|
  {
    var line, c := text + rest, text[0];
    assert line[1..] == text[1..] + rest && c in text;
    assert Step(s, c) == Grown(s, [c]);
    if |text| == 1 {
      assert text == [c] && text[1..] + rest == rest;
    } else {
      assert Proper(Bare(text[1..])) by { assert forall x :: x in text[1..] ==> x in text; }
      BareScans(text[1..], rest, Step(s, c));
      assert s.token + [c] + text[1..] == s.token + text;
    }
  }

  // What follows a backslash inside the quotes is a bare quote only if the text ends there.
  lemma EscapedStartsSafely(q: char, text: string)
    requires q != '\\' && text != []
    ensures EscapedFor(q, text) != [] && EscapedFor(q, text)[0] != q
  {
  }

  lemma {:induction false} QuotedTextScans(q: char, text: string, rest: string, s: Scanner)
    requires IsQuote(q) && NulFree(text) && !EndsInBackslash(text) && s.quote == Some(q) && s.started
    ensures Scan(EscapedFor(q, text) + [q] + rest, s) == Scan(rest, Grown(s, text).(quote := None))
    decreases |text|
  {
    var line := EscapedFor(q, text) + [q] + rest;
    if text == [] {
      assert line == [q] + rest && line[1..] == rest;
      assert s.token + text == s.token;
    } else {
      var c := text[0];
      var more := EscapedFor(q, text[1..]) + [q] + rest;
      assert s.token + [c] + text[1..] == s.token + text;
      assert NulFree(text[1..]) && !EndsInBackslash(text[1..]);
      if c == q {
        assert line == ['\\', q] + more;
        assert line[2..] == more && Escapes(s, line);
        assert Scan(line, s) == Scan(more, Push(s, c));
      } else {
        assert line == [c] + more && line[1..] == more;
        if c == '\\' { EscapedStartsSafely(q, text[1..]); }
        assert !Escapes(s, line);
        assert Scan(line, s) == Scan(more, Push(s, c));
      }
      QuotedTextScans(q, text[1..], rest, Push(s, c));
    }
  }

  lemma PartScans(p: Part, rest: string, s: Scanner)
    requires Proper(p) && s.quote.None?
    ensures Scan(Written(p) + rest, s) == Scan(rest, Grown(s, p.text))
  {
    match p
    case Bare(text) => BareScans(text, rest, s);
    case Quoted(q, text) =>
      var line := Written(p) + rest;
      var open := s.(quote := Some(q), started := true);
      assert line[0] == q && line[1..] == EscapedFor(q, text) + [q] + rest;
      assert Scan(line, s) == Scan(line[1..], open);
      QuotedTextScans(q, text, rest, open);
      assert Grown(open, text).(quote := None) == Grown(s, text);
  }

  lemma {:induction false} WordScans(word: seq<Part>, rest: string, s: Scanner)
    requires IsWord(word) && s.quote.None?
    ensures Scan(Spelled(word) + rest, s) == Scan(rest, Grown(s, Meant(word)))
    decreases |word|
  {
    hide Scan, Written;
    var more := Spelled(word[1..]) + rest;
    assert Spelled(word) + rest == Written(word[0]) + more;
    PartScans(word[0], more, s);
    var t := Grown(s, word[0].text);
    if |word| == 1 {
      assert word[1..] == [];
      assert more == rest && Meant(word) == word[0].text + [] == word[0].text;
    } else {
      WordScans(word[1..], rest, t);
      assert s.token + word[0].text + Meant(word[1..]) == s.token + Meant(word);
    }
  }

  ghost predicate AllSpace(gap: string) {
    forall c :: c in gap ==> IsSpace(c)
  }

  // White space between tokens means nothing.
  lemma {:induction false} GapScans(gap: string, rest: string, s: Scanner)
    requires AllSpace(gap) && s.quote.None? && !s.started
    ensures Scan(gap + rest, s) == Scan(rest, s)
    decreases |gap|
  {
    if gap == [] {
      assert gap + rest == rest;
    } else {
      assert (gap + rest)[1..] == gap[1..] + rest && gap[0] in gap;
      assert forall c :: c in gap[1..] ==> c in gap;
      GapScans(gap[1..], rest, s);
    }
  }

  // One white-space character ends a token.
  lemma SpaceEndsToken(gap: string, rest: string, s: Scanner)
    requires AllSpace(gap) && gap != [] && s.quote.None?
    ensures Scan(gap + rest, s) == Scan(gap[1..] + rest, EndToken(s))
  {
    assert (gap + rest)[1..] == gap[1..] + rest && gap[0] in gap;
  }

  // The words with their gaps: one before each word, and one at the end.
  function Spread(words: seq<seq<Part>>, gaps: seq<string>): string
    requires |gaps| == |words| + 1
  {
    if words == [] then gaps[0] else gaps[0] + Spelled(words[0]) + Spread(words[1..], gaps[1..])
  }

  function AllMeant(words: seq<seq<Part>>): seq<string> {
    if words == [] then [] else [Meant(words[0])] + AllMeant(words[1..])
  }

  // Nothing but white space, and some of it between any two words.
  ghost predicate Separate(words: seq<seq<Part>>, gaps: seq<string>) {
    && |gaps| == |words| + 1
    && (forall i :: 0 <= i < |words| ==> IsWord(words[i]))
    && (forall i :: 0 <= i < |gaps| ==> AllSpace(gaps[i]))
    && (forall i :: 0 < i < |words| ==> gaps[i] != [])
  }

  /** A line that tokenizes, white space, and any other line: the tokens of the first come before whatever the
      second one gives. */
  lemma GapThen(a: string, gap: string, b: string)
    requires Scan(a, START).Success? && AllSpace(gap) && gap != []
    ensures Scan(a + (gap + b), START) == After(Scan(a, START).value, Scan(b, START))
  {
    ReachesEnd(a, START);
    var t, x := Reach(a, START).value, Scan(a, START).value;
    ScanThrough(a, gap + b, START);
    SpaceEndsToken(gap, b, t);
    assert forall c :: c in gap[1..] ==> c in gap;
    GapScans(gap[1..], b, EndToken(t));
    assert EndToken(t) == START.(arguments := x + START.arguments);
    ScanAfter(b, START, x);
  }

  lemma WordTokenizes(gap: string, word: seq<Part>)
    requires AllSpace(gap) && IsWord(word)
    ensures Scan(gap + Spelled(word), START) == Success([Meant(word)])
  {
    GapScans(gap, Spelled(word), START);
    assert Spelled(word) + [] == Spelled(word);
    WordScans(word, [], START);
    assert START.token + Meant(word) == Meant(word) && START.arguments + [Meant(word)] == [Meant(word)];
  }

  /** Words separated by any white space, each a run of bare and quoted parts, tokenize to exactly what the
      parts say, joined word by word. */
  lemma {:induction false} WordsTokenize(words: seq<seq<Part>>, gaps: seq<string>)
    requires Separate(words, gaps)
    ensures Scan(Spread(words, gaps), START) == Success(AllMeant(words))
    decreases |words|
  {
    if words == [] {
      assert gaps[0] + [] == gaps[0];
      GapScans(gaps[0], [], START);
    } else {
      var first, gap := gaps[0] + Spelled(words[0]), gaps[1];
      WordTokenizes(gaps[0], words[0]);
      var left := [""] + gaps[2..];
      assert Separate(words[1..], left) by {
        assert forall i :: 0 < i < |left| ==> left[i] == gaps[i + 1];
        assert forall i :: 0 <= i < |words| - 1 ==> words[1..][i] == words[i + 1];
      }
      WordsTokenize(words[1..], left);
      FirstGapSplits(words[1..], gaps[1..], left);
      assert Spread(words, gaps) == first + (gap + Spread(words[1..], left));
      if gap == [] {
        assert words[1..] == [] && Spread(words[1..], left) == "";
        assert first + (gap + "") == first && [Meant(words[0])] + AllMeant(words[1..]) == [Meant(words[0])];
      } else {
        GapThen(first, gap, Spread(words[1..], left));
      }
    }
  }

  lemma FirstGapSplits(words: seq<seq<Part>>, gaps: seq<string>, left: seq<string>)
    requires |gaps| == |words| + 1 == |left| && left[1..] == gaps[1..] && left[0] == ""
    ensures Spread(words, gaps) == gaps[0] + Spread(words, left)
  {
    if words == [] {
      assert gaps[0] + "" == gaps[0];
    } else {
      assert "" + Spelled(words[0]) == Spelled(words[0]);
    }
  }

  /** In particular a word without quotes and white space is itself. */
  lemma BareWordTokenizes(word: string)
    requires Proper(Bare(word))
    ensures Scan(word, START) == Success([word])
  {
    assert word + [] == word;
    BareScans(word, [], START);
    assert START.token + word == word && START.arguments + [word] == [word];
  }

  /** A NUL byte anywhere, and nothing else, makes the line fail as such. */
  lemma {:induction false} NulMeans(line: string, s: Scanner)
    requires s.quote != Some('\0')
    ensures Scan(line, s) == Failure(NulByte) <==> '\0' in line
    decreases |line|
  {
    if line != [] && line[0] != '\0' {
      if Escapes(s, line) {
        assert line == [line[0], line[1]] + line[2..];
        NulMeans(line[2..], Push(s, line[1]));
      } else {
        assert line == [line[0]] + line[1..];
        NulMeans(line[1..], Step(s, line[0]));
      }
    }
  }

  // A quote that is never closed.
  lemma {:induction false} OpenQuoteFails(q: char, text: string, s: Scanner)
    requires s.quote == Some(q) && NulFree(text) && q !in text
    ensures Scan(text, s) == Failure(UnterminatedQuote)
    decreases |text|
  {
    if text != [] {
      assert text[0] in text && (|text| > 1 ==> text[1] in text);
      assert !Escapes(s, text);
      OpenQuoteFails(q, text[1..], Push(s, text[0]));
    }
  }

  /** A quote that is not closed fails the line, whatever words came before it. */
  lemma UnclosedQuoteFails(words: seq<seq<Part>>, gaps: seq<string>, gap: string, q: char, text: string)
    requires Separate(words, gaps) && AllSpace(gap) && gap != [] && IsQuote(q) && NulFree(text) && q !in text
    ensures Scan(Spread(words, gaps) + (gap + ([q] + text)), START) == Failure(UnterminatedQuote)
  {
    WordsTokenize(words, gaps);
    GapThen(Spread(words, gaps), gap, [q] + text);
    assert ([q] + text)[1..] == text;
    OpenQuoteFails(q, text, Step(START, q));
  }
}

/**
 `shell_double_quote` of `src/bin/neosh.rs`, and how a shell reads its result: inside double
 quotes (section 2.2.3 of the POSIX Shell Command Language, IEEE Std 1003.1-2017), inside the
 single quotes (section 2.2.2) that `build_remote_command` puts around the whole script, and joined
 to one word (section 2.3).
 */
module ShellQuote {
  /** `str::replace` of one character. */
  function Replace(s: string, c: char, with: string): string {
    if s == [] then [] else (if s[0] == c then with else [s[0]]) + Replace(s[1..], c, with)
  }

  /** The four replacements, one after the other. */
  function Escaped(s: string): string {
    Replace(Replace(Replace(Replace(s, '\\', ['\\', '\\']), '"', ['\\', '"']), '$', ['\\', '$']), '`', ['\\', '`'])
  }

  function ShellDoubleQuote(input: string): string {
    if input == [] then ['"', '"'] else ['"'] + Escaped(input) + ['"']
  }

  // ---------------------------------------------------------------- one pass

  predicate Special(c: char) {
    c == '\\' || c == '"' || c == '$' || c == '`'
  }

  function OnePassChar(c: char): string {
    if Special(c) then ['\\', c] else [c]
  }

  /** Every special character behind a backslash, in a single pass. */
  function OnePass(s: string): string {
    if s == [] then [] else OnePassChar(s[0]) + OnePass(s[1..])
  }

  lemma {:induction false} ReplaceAppend(a: string, b: string, c: char, with: string)
    ensures Replace(a + b, c, with) == Replace(a, c, with) + Replace(b, c, with)
  {
    if a == [] {
      assert a + b == b;
    } else {
      assert (a + b)[1..] == a[1..] + b;
      ReplaceAppend(a[1..], b, c, with);
    }
  }

  lemma ReplaceOne(x: char, c: char, with: string)
    ensures Replace([x], c, with) == if x == c then with else [x]
  {
    assert [x][1..] == [];
    assert with + [] == with;
  }

  lemma ReplacePair(x: char, y: char, c: char, with: string)
    ensures x != c && y != c ==> Replace([x, y], c, with) == [x, y]
  {
    assert [x, y] == [x] + [y];
    ReplaceAppend([x], [y], c, with);
    ReplaceOne(x, c, with);
    ReplaceOne(y, c, with);
  }

  lemma EscapedOne(x: char)
    ensures Escaped([x]) == if Special(x) then ['\\', x] else [x]
  {
    var bs, dq, dl, bq: string := ['\\', '\\'], ['\\', '"'], ['\\', '$'], ['\\', '`'];
    ReplaceOne(x, '\\', bs);
    ReplaceOne(x, '"', dq);
    ReplaceOne(x, '$', dl);
    ReplaceOne(x, '`', bq);
    ReplacePair('\\', x, '"', dq);
    ReplacePair('\\', x, '$', dl);
    ReplacePair('\\', x, '`', bq);
  }

  lemma EscapedAppend(a: string, b: string)
    ensures Escaped(a + b) == Escaped(a) + Escaped(b)
  {
    var bs, dq, dl, bq: string := ['\\', '\\'], ['\\', '"'], ['\\', '$'], ['\\', '`'];
    var a1, b1 := Replace(a, '\\', bs), Replace(b, '\\', bs);
    var a2, b2 := Replace(a1, '"', dq), Replace(b1, '"', dq);
    var a3, b3 := Replace(a2, '$', dl), Replace(b2, '$', dl);
    ReplaceAppend(a, b, '\\', bs);
    ReplaceAppend(a1, b1, '"', dq);
    ReplaceAppend(a2, b2, '$', dl);
    ReplaceAppend(a3, b3, '`', bq);
  }

  /** Replacing four times in a row escapes every special character once: no backslash is escaped again. */
  lemma {:induction false} FourReplacesAreOnePass(s: string)
    ensures Escaped(s) == OnePass(s)
  {
    if s != [] {
      assert s == [s[0]] + s[1..];
      EscapedAppend([s[0]], s[1..]);
      EscapedOne(s[0]);
      FourReplacesAreOnePass(s[1..]);
    }
  }

  // ---------------------------------------------------------------- the shell

  /** A word or a quoted part of one, read to its end, with what follows it. */
  datatype Reading = Word(value: string, rest: string) | Expansion | Unterminated
  {
    function Put(c: char): Reading {
      this.After([c])
    }

    function After(before: string): Reading {
      if Word? then Word(before + value, rest) else this
    }
  }

  /** The text after an opening double quote. */
  function InDoubleQuotes(s: string): (r: Reading)
    ensures r.Word? ==> |r.value| + |r.rest| < |s|
    decreases |s|
  {
    if s == [] then Unterminated
    else if s[0] == '"' then Word([], s[1..])
    else if s[0] == '$' || s[0] == '`' then Expansion
    else if s[0] == '\\' && |s| >= 2 && Special(s[1]) then InDoubleQuotes(s[2..]).Put(s[1])
    else if s[0] == '\\' && |s| >= 2 && s[1] == '\n' then InDoubleQuotes(s[2..])
    else InDoubleQuotes(s[1..]).Put(s[0])
  }

  /** The text after an opening single quote: nothing is special but the closing quote. */
  function InSingleQuotes(s: string): (r: Reading)
    ensures r.Word? ==> |r.value| + |r.rest| < |s|
  {
    if s == [] then Unterminated
    else if s[0] == '\'' then Word([], s[1..])
    else InSingleQuotes(s[1..]).Put(s[0])
  }

  /** The characters that end a word where nothing is quoted. */
  predicate EndsWord(c: char) {
    c in {' ', '\t', '\n', ';', '&', '|', '<', '>', '(', ')'}
  }

  /** The characters that stand for something else where nothing is quoted. */
  predicate Expands(c: char) {
    c in {'$', '`', '*', '?', '[', '~'}
  }

  /** A whole word: quoted and unquoted parts, joined up to the first character that ends it. */
  function ReadWord(s: string): (r: Reading)
    ensures r.Word? ==> |r.value| + |r.rest| <= |s|
    decreases |s|, 1
  {
    if s == [] || EndsWord(s[0]) then Word([], s)
    else if s[0] == '\'' then Join(InSingleQuotes(s[1..]))
    else if s[0] == '"' then Join(InDoubleQuotes(s[1..]))
    else if Expands(s[0]) then Expansion
    else if s[0] == '\\' && |s| >= 2 then
      if s[1] == '\n' then ReadWord(s[2..]) else ReadWord(s[2..]).Put(s[1])
    else ReadWord(s[1..]).Put(s[0])
  }

  /** A quoted part and the rest of the word. */
  function Join(part: Reading): (r: Reading)
    ensures r.Word? ==> part.Word? && |r.value| + |r.rest| <= |part.value| + |part.rest|
    decreases if part.Word? then |part.rest| + 1 else 0, 0
  {
    if part.Word? then ReadWord(part.rest).After(part.value) else part
  }

  lemma ReadsOneChar(c: char, more: string)
    ensures InDoubleQuotes(OnePassChar(c) + more) == InDoubleQuotes(more).Put(c)
  {
    var text := OnePassChar(c) + more;
    if Special(c) {
      assert text[0] == '\\' && text[1] == c && text[2..] == more;
    } else {
      assert text[0] == c && text[1..] == more;
    }
  }

  lemma {:induction false} OnePassReadsBack(x: string, end: string, rest: string)
    requires end == ['"'] + rest
    ensures InDoubleQuotes(OnePass(x) + end) == Word(x, rest)
    decreases |x|
  {
    if x == [] {
      assert OnePass(x) + end == end && end[1..] == rest;
    } else {
      assert OnePass(x) + end == OnePassChar(x[0]) + (OnePass(x[1..]) + end);
      ReadsOneChar(x[0], OnePass(x[1..]) + end);
      OnePassReadsBack(x[1..], end, rest);
      assert x == [x[0]] + x[1..];
    }
  }

  /** A shell reads any quoted text back exactly, with nothing expanded, whatever comes after it. */
  lemma DoubleQuoteRoundTrip(x: string, rest: string)
    ensures var text := ShellDoubleQuote(x) + rest;
            text[0] == '"' && InDoubleQuotes(text[1..]) == Word(x, rest)
  {
    FourReplacesAreOnePass(x);
    OnePassReadsBack(x, ['"'] + rest, rest);
    assert ShellDoubleQuote(x) + rest == ['"'] + (OnePass(x) + (['"'] + rest));
  }

  /** And as a word of its own, when a character that ends words, or nothing, comes after it. */
  lemma QuotedWordReadsBack(x: string, rest: string)
    requires rest == [] || EndsWord(rest[0])
    ensures ReadWord(ShellDoubleQuote(x) + rest) == Word(x, rest)
  {
    DoubleQuoteRoundTrip(x, rest);
    var text := ShellDoubleQuote(x) + rest;
    assert ReadWord(text) == Join(Word(x, rest));
    assert ReadWord(rest) == Word([], rest) && x + [] == x;
  }

  // ---------------------------------------------------------------- the outer layer

  lemma {:induction false} SingleQuotedText(s: string, rest: string)
    ensures '\'' !in s ==> InSingleQuotes(s + ['\''] + rest) == Word(s, rest)
    ensures '\'' in s ==> InSingleQuotes(s + ['\''] + rest).Word? && '\'' in InSingleQuotes(s + ['\''] + rest).rest
    ensures InSingleQuotes(s + ['\''] + rest).Word?
  {
    var text := s + ['\''] + rest;
    if s == [] {
      assert text == ['\''] + rest;
    } else {
      assert text[1..] == s[1..] + ['\''] + rest;
      assert s == [s[0]] + s[1..];
      SingleQuotedText(s[1..], rest);
    }
  }

  /** Removing a quote makes a word shorter than its text. */
  lemma {:induction false} UnquotingShortens(s: string)
    requires '\'' in s
    ensures ReadWord(s).Word? ==> |ReadWord(s).value| < |s|
    decreases |s|
  {
    if s[0] !in {'\'', '"', '\\'} && !EndsWord(s[0]) && !Expands(s[0]) {
      assert s == [s[0]] + s[1..];
      UnquotingShortens(s[1..]);
    }
  }

  /** What `sh -lc '...'` passes to the inner shell is the script as written, if and only if it has no single quote. */
  lemma SingleQuotedWordIff(script: string)
    ensures ReadWord(['\''] + script + ['\'']) == Word(script, []) <==> '\'' !in script
  {
    var text := ['\''] + script + ['\''];
    assert text[1..] == script + ['\''] + [];
    SingleQuotedText(script, []);
    var part := InSingleQuotes(text[1..]);
    assert ReadWord(text) == Join(part);
    if '\'' in script {
      UnquotingShortens(part.rest);
    } else {
      assert ReadWord([]) == Word([], []);
      assert Join(Word(script, [])) == Word(script + [], []);
      assert script + [] == script;
    }
  }

  lemma {:induction false} EscapingAddsNoQuote(x: string)
    ensures '\'' in OnePass(x) <==> '\'' in x
  {
    if x != [] {
      assert x == [x[0]] + x[1..];
      EscapingAddsNoQuote(x[1..]);
    }
  }

  lemma QuotingAddsNoQuote(x: string)
    ensures '\'' in ShellDoubleQuote(x) <==> '\'' in x
  {
    FourReplacesAreOnePass(x);
    EscapingAddsNoQuote(x);
  }

  /**
   Through both layers. The script `before "x" after`, as the word of `sh -lc '...'`, reaches the inner
   shell as it was written if and only if `x` has no single quote in it; and at the place of `x` the
   inner shell then reads exactly `x`.
   */
  lemma OuterLayerIff(before: string, x: string, after: string)
    requires '\'' !in before && '\'' !in after
    requires after == [] || EndsWord(after[0])
    ensures var script := before + ShellDoubleQuote(x) + after;
            var outer := ReadWord(['\''] + script + ['\'']);
            && (outer == Word(script, []) <==> '\'' !in x)
            && (outer == Word(script, []) ==> ReadWord(outer.value[|before|..]) == Word(x, after))
  {
    var word := ShellDoubleQuote(x);
    QuotingAddsNoQuote(x);
    SingleQuotedWordIff(before + word + after);
    QuotedWordReadsBack(x, after);
    assert (before + word + after)[|before|..] == word + after;
  }

  /** An apostrophe in a remote command: the inner shell does not get the script. */
  lemma ApostropheEndsScript()
    ensures var script := ShellDoubleQuote(['\'']);
            ReadWord(['\''] + script + ['\'']) != Word(script, [])
  {
    OuterLayerIff([], ['\''], []);
    assert [] + ShellDoubleQuote(['\'']) + [] == ShellDoubleQuote(['\'']);
  }
}

/**
 Single-quoting a path for the generated script, against a shell's own reading of quotes:
 sections 2.2.1 (backslash) and 2.2.2 (single quotes) of the POSIX Shell Command Language.
 */
module ShellQuote {
  import opened Wrappers

  /** Rust's `replace` of each single quote by the four characters `'\''`. */
  function Escaped(s: string): string {
    if s == "" then ""
    else (if s[0] == '\'' then ['\'', '\\', '\'', '\''] else [s[0]]) + Escaped(s[1..])
  }

  function Quoted(s: string): string { ['\''] + Escaped(s) + ['\''] }

  /** What a shell makes of a text. Other quoting and operators are not part of these rules. */
  datatype Reading = Words(words: seq<string>) | Unclosed | OtherRules

  predicate Blank(c: char) { c == ' ' || c == '\t' }

  /** Characters some other rule gives a meaning to when they stand unquoted. */
  predicate Special(c: char) { c in "\n|&;<>()$`\"*?[#~=%" }

  /** Reads on from inside (`quoted`) or outside single quotes, with the word so far. */
  function Read(s: string, word: Option<string>, quoted: bool): Reading
    decreases s
  {
    var sofar := if word.Some? then word.value else "";
    if s == "" then
      if quoted then Unclosed else Words(if word.Some? then [word.value] else [])
    else if quoted then
      if s[0] == '\'' then Read(s[1..], Some(sofar), false) else Read(s[1..], Some(sofar + [s[0]]), true)
    else if s[0] == '\'' then Read(s[1..], Some(sofar), true)
    else if s[0] == '\\' then
      if |s| == 1 then OtherRules
      else if s[1] == '\n' then Read(s[2..], word, false)
      else Read(s[2..], Some(sofar + [s[1]]), false)
    else if Blank(s[0]) then
      match Read(s[1..], None, false)
      case Words(rest) => Words((if word.Some? then [word.value] else []) + rest)
      case other => other
    else if Special(s[0]) then OtherRules
    else Read(s[1..], Some(sofar + [s[0]]), false)
  }

  /** Out of the quotes, an escaped quote, and in again. */
  lemma EscapedQuoteReads(after: string, word: string)
    ensures Read(['\'', '\\', '\'', '\''] + after, Some(word), true) == Read(after, Some(word + ['\'']), true)
  {
    var text := ['\'', '\\', '\'', '\''] + after;
    var t1 := ['\\', '\'', '\''] + after;
    var t2 := ['\''] + after;
    assert text[1..] == t1 && t1[2..] == t2 && t2[1..] == after;
    assert Read(text, Some(word), true) == Read(t1, Some(word), false);
    assert Read(t1, Some(word), false) == Read(t2, Some(word + ['\'']), false);
    assert Read(t2, Some(word + ['\'']), false) == Read(after, Some(word + ['\'']), true);
  }

  lemma {:induction false} EscapedReads(s: string, rest: string, word: string)
    ensures Read(Escaped(s) + ['\''] + rest, Some(word), true) == Read(rest, Some(word + s), false)
    decreases s
  {
    var text := Escaped(s) + ['\''] + rest;
    if s == "" {
      assert text[1..] == rest;
      assert word + s == word;
    } else {
      var after := Escaped(s[1..]) + ['\''] + rest;
      EscapedReads(s[1..], rest, word + [s[0]]);
      assert word + [s[0]] + s[1..] == word + s;
      if s[0] == '\'' {
        assert text == ['\'', '\\', '\'', '\''] + after;
        hide Read, Escaped;
        EscapedQuoteReads(after, word);
      } else {
        assert text[1..] == after;
      }
    }
  }

  /** Wherever it stands, a quoted string adds exactly its own text to the word being read. */
  lemma QuotedReadsAsItself(s: string, rest: string, word: Option<string>)
    ensures Read(Quoted(s) + rest, word, false)
         == Read(rest, Some((if word.Some? then word.value else "") + s), false)
  {
    var sofar := if word.Some? then word.value else "";
    assert (Quoted(s) + rest)[1..] == Escaped(s) + ['\''] + rest;
    EscapedReads(s, rest, sofar);
  }

  /** Alone it is one word, and that word is the string. */
  lemma QuotedIsOneWord(s: string)
    ensures Read(Quoted(s), None, false) == Words([s])
  {
    QuotedReadsAsItself(s, "", None);
    assert Quoted(s) + "" == Quoted(s);
    assert "" + s == s;
  }
}

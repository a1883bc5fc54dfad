/** The string primitives the wrapper relies on: Python's `str.isspace`,
    `str.startswith`, `str.split()` without argument, and the line splitting
    of `StringIO.readlines()` (newline '\n', no translation). */
module Text {

  /** The characters for which Python's `str.isspace()` holds: among them
      the six ASCII whitespace characters, and no printable ASCII character
      other than the blank. */
  predicate IsSpace(c: char)
    ensures c in " \t\n\r\U{b}\U{c}" ==> IsSpace(c)
    ensures '!' <= c <= '~' ==> !IsSpace(c)
  {
    || c == ' '
    || ('\t' <= c <= '\r')
    || ('\U{1c}' <= c <= '\U{1f}')
    || c == '\U{85}' || c == '\U{a0}' || c == '\U{1680}'
    || ('\U{2000}' <= c <= '\U{200a}')
    || c == '\U{2028}' || c == '\U{2029}' || c == '\U{202f}'
    || c == '\U{205f}' || c == '\U{3000}'
  }

  /** A token of `str.split()`: non-empty and free of whitespace. */
  predicate IsWord(w: string) {
    w != [] && forall i :: 0 <= i < |w| ==> !IsSpace(w[i])
  }

  predicate StartsWith(s: string, prefix: string) {
    |prefix| <= |s| && s[..|prefix|] == prefix
  }

  /** Number of whitespace characters at the front of `s`. */
  function LeadingSpace(s: string): (n: nat)
    ensures n <= |s|
    ensures forall i :: 0 <= i < n ==> IsSpace(s[i])
    ensures n < |s| ==> !IsSpace(s[n])
  {
    if s != [] && IsSpace(s[0]) then 1 + LeadingSpace(s[1..]) else 0
  }

  /** Number of non-whitespace characters at the front of `s`. */
  function WordLength(s: string): (n: nat)
    ensures n <= |s|
    ensures forall i :: 0 <= i < n ==> !IsSpace(s[i])
    ensures n < |s| ==> IsSpace(s[n])
  {
    if s != [] && !IsSpace(s[0]) then 1 + WordLength(s[1..]) else 0
  }

  /** Python's `s.split()`: the maximal runs of non-whitespace characters,
      in order; leading, trailing and repeated whitespace yields no token. */
  function Split(s: string): (words: seq<string>)
    ensures forall k :: 0 <= k < |words| ==> IsWord(words[k])
    ensures (forall i :: 0 <= i < |s| ==> IsSpace(s[i])) <==> words == []
    decreases |s|
  {
    var t := s[LeadingSpace(s)..];
    if t == [] then []
    else
      var n := WordLength(t);
      [t[..n]] + Split(t[n..])
  }

  /** The words joined by single spaces: the inverse partner of `Split`. */
  function Unwords(words: seq<string>): string {
    if words == [] then ""
    else if |words| == 1 then words[0]
    else words[0] + " " + Unwords(words[1..])
  }

  lemma {:induction false} WordLengthOfWord(w: string, rest: string)
    requires IsWord(w)
    requires rest == [] || IsSpace(rest[0])
    ensures WordLength(w + rest) == |w|
  {
    if |w| > 1 {
      assert (w + rest)[1..] == w[1..] + rest;
      WordLengthOfWord(w[1..], rest);
    } else {
      assert (w + rest)[1..] == rest;
    }
  }

  /** A leading whitespace character never changes the tokens. */
  lemma SplitSkipsSpace(c: char, s: string)
    requires IsSpace(c)
    ensures Split([c] + s) == Split(s)
  {
    assert ([c] + s)[1..] == s;
    assert ([c] + s)[LeadingSpace([c] + s)..] == s[LeadingSpace(s)..];
  }

  /** A word followed by whitespace (or by nothing) is the first token. */
  lemma SplitWordThen(w: string, rest: string)
    requires IsWord(w)
    requires rest == [] || IsSpace(rest[0])
    ensures Split(w + rest) == [w] + Split(rest)
  {
    var s := w + rest;
    assert s[0] == w[0];
    assert LeadingSpace(s) == 0;
    assert s[LeadingSpace(s)..] == s;
    WordLengthOfWord(w, rest);
    assert s[..|w|] == w;
    assert s[|w|..] == rest;
  }

  /** A word followed by a blank and more text is that word, then the
      tokens of the text. */
  lemma SplitWordBlankThen(w: string, t: string)
    requires IsWord(w)
    ensures Split(w + " " + t) == [w] + Split(t)
  {
    var rest := " " + t;
    assert w + " " + t == w + rest;
    SplitWordThen(w, rest);
    assert rest == [' '] + t;
    SplitSkipsSpace(' ', t);
  }

  /** A word followed only by whitespace is a single token. */
  lemma SplitLastWord(w: string, trailer: string)
    requires IsWord(w)
    requires forall i :: 0 <= i < |trailer| ==> IsSpace(trailer[i])
    ensures Split(Unwords([w]) + trailer) == [w]
  {
    assert Unwords([w]) + trailer == w + trailer;
    SplitWordThen(w, trailer);
    assert Split(trailer) == [];
  }

  /** Splitting words that were joined by single spaces, and followed by
      any run of whitespace (a line's '\n', say), gives the words back. */
  lemma {:induction false} SplitUnwords(words: seq<string>, trailer: string)
    requires forall k :: 0 <= k < |words| ==> IsWord(words[k])
    requires forall i :: 0 <= i < |trailer| ==> IsSpace(trailer[i])
    ensures Split(Unwords(words) + trailer) == words
    decreases |words|, 1
  {
    if words == [] {
      assert Unwords(words) + trailer == trailer;
    } else if |words| == 1 {
      assert words == [words[0]];
      SplitLastWord(words[0], trailer);
    } else {
      assert words == [words[0]] + words[1..];
      SplitUnwordsCons(words[0], words[1..], trailer);
    }
  }

  /** The step of `SplitUnwords` for two or more words: the first word,
      then the tokens of the rest. */
  lemma {:induction false} SplitUnwordsCons(w: string, rest: seq<string>, trailer: string)
    requires IsWord(w) && rest != []
    requires forall k :: 0 <= k < |rest| ==> IsWord(rest[k])
    requires forall i :: 0 <= i < |trailer| ==> IsSpace(trailer[i])
    ensures Split(Unwords([w] + rest) + trailer) == [w] + rest
    decreases |rest| + 1, 0
  {
    var words := [w] + rest;
    assert words[0] == w && words[1..] == rest;
    assert Unwords(words) + trailer == w + " " + (Unwords(rest) + trailer);
    SplitUnwords(rest, trailer);
    SplitWordBlankThen(w, Unwords(rest) + trailer);
  }

  /** Concatenation of a list of strings. */
  function Concat(lines: seq<string>): string {
    if lines == [] then "" else lines[0] + Concat(lines[1..])
  }

  /** Length of the first line of `text`, its '\n' included when there is one. */
  function LineLength(text: string): (n: nat)
    ensures n <= |text|
    ensures text != [] ==> n > 0
    ensures forall i :: 0 <= i < n - 1 ==> text[i] != '\n'
    ensures 0 < n < |text| ==> text[n - 1] == '\n'
    ensures n == |text| || (n > 0 && text[n - 1] == '\n')
  {
    if text == [] then 0
    else if text[0] == '\n' then 1
    else 1 + LineLength(text[1..])
  }

  /** `StringIO(text).readlines()`: every line keeps its '\n'; only the last
      line may lack one; no line is empty. */
  function ReadLines(text: string): (lines: seq<string>)
    ensures Concat(lines) == text
    ensures forall k :: 0 <= k < |lines| ==> lines[k] != []
    ensures forall k :: 0 <= k < |lines| - 1 ==> lines[k][|lines[k]| - 1] == '\n'
    ensures forall k, i :: 0 <= k < |lines| && 0 <= i < |lines[k]| - 1 ==> lines[k][i] != '\n'
    decreases |text|
  {
    if text == [] then []
    else
      var n := LineLength(text);
      var rest := ReadLines(text[n..]);
      assert text[..n] + text[n..] == text;
      [text[..n]] + rest
  }

  /** A line without its comment: `np.loadtxt` (its default
      `comments='#'`) drops everything from the
      first '#' on. */
  function StripComment(line: string): (r: string)
    ensures '#' !in r
    ensures r <= line
    ensures '#' !in line ==> r == line
    ensures r == line || (|r| < |line| && line[|r|] == '#')
  {
    if line == [] then []
    else if line[0] == '#' then []
    else [line[0]] + StripComment(line[1..])
  }

  /** The tokens of a data line. A line with none (blank or comment only) is
      skipped by `np.loadtxt`. */
  function LineTokens(line: string): (tokens: seq<string>)
    ensures forall k :: 0 <= k < |tokens| ==> IsWord(tokens[k])
    ensures '#' !in line ==> tokens == Split(line)
    ensures line != [] && line[0] == '#' ==> tokens == []
  {
    Split(StripComment(line))
  }
}

/** The line and field splitting that both procfs parsers are written with. */
module Text {
  import opened Prelude
  import opened Decimal

  /** unicode.IsSpace, which is also the set of blanks of fmt.Sscanf. */
  predicate IsSpace(c: char) {
    || '\t' <= c <= '\r' || c == ' ' || c == '\U{0085}' || c == '\U{00A0}' || c == '\U{1680}'
    || '\U{2000}' <= c <= '\U{200A}' || c == '\U{2028}' || c == '\U{2029}' || c == '\U{202F}'
    || c == '\U{205F}' || c == '\U{3000}'
  }

  /** A word: at least one character, none of them a space. */
  predicate IsWord(s: string) {
    s != "" && NoSpace(s)
  }

  predicate NoSpace(s: string) {
    forall i :: 0 <= i < |s| ==> !IsSpace(s[i])
  }

  /** Spacing within one line. */
  predicate IsBlank(s: string) {
    forall i :: 0 <= i < |s| ==> IsSpace(s[i]) && s[i] != '\n'
  }

  /** Blanks and tabs separate, printable ASCII characters do not. */
  lemma SpacingOfText(gap: string, word: string)
    requires forall i :: 0 <= i < |gap| ==> gap[i] == ' ' || gap[i] == '\t'
    requires forall i :: 0 <= i < |word| ==> '!' <= word[i] <= '~'
    ensures IsBlank(gap) && NoSpace(word)
  {
  }

  /** bufio.Reader.ReadString('\n'): the next line with its newline, and what follows it.
      None is the end of the file; an unterminated last line is never handed out. */
  function ReadString(text: string): (r: Option<(string, string)>)
    ensures r.Some? ==> text == r.value.0 + r.value.1 && |r.value.1| < |text|
  {
    var i := IndexOf(text, '\n');
    if i == |text| then None else Some((text[..i + 1], text[i + 1..]))
  }

  /** The complete lines of a text. */
  function Lines(text: string): seq<string>
    decreases |text|
  {
    var next := ReadString(text);
    if next.None? then [] else [next.value.0] + Lines(next.value.1)
  }

  lemma ReadStringLine(line: string, rest: string)
    requires '\n' !in line
    ensures ReadString(line + "\n" + rest) == Some((line + "\n", rest))
  {
    var text := line + "\n" + rest;
    assert forall j :: 0 <= j < |line| ==> text[j] == line[j];
    assert text[|line|] == '\n';
    assert IndexOf(text, '\n') == |line|;
    assert text[..|line| + 1] == line + "\n";
    assert text[|line| + 1..] == rest;
  }

  /** The text of s from its first character that is not a space. */
  function SkipSpaces(s: string): (r: string)
    ensures |r| <= |s|
  {
    if s != "" && IsSpace(s[0]) then SkipSpaces(s[1..]) else s
  }

  /** The longest prefix of s without spaces. */
  function Word(s: string): (w: string)
    ensures w <= s
    ensures s != "" && !IsSpace(s[0]) ==> w != ""
  {
    if s == "" || IsSpace(s[0]) then "" else [s[0]] + Word(s[1..])
  }

  /** strings.Fields. */
  function Fields(s: string): seq<string>
    decreases |s|
  {
    var t := SkipSpaces(s);
    if t == "" then []
    else
      SkipSpacesHead(s);
      [Word(t)] + Fields(t[|Word(t)|..])
  }

  lemma SkipSpacesHead(s: string)
    ensures SkipSpaces(s) != "" ==> !IsSpace(SkipSpaces(s)[0])
  {
  }

  lemma {:induction false} SkipSpacesOver(gap: string, rest: string)
    requires forall i :: 0 <= i < |gap| ==> IsSpace(gap[i])
    requires rest == "" || !IsSpace(rest[0])
    ensures SkipSpaces(gap + rest) == rest
  {
    if gap == "" {
      assert gap + rest == rest;
    } else {
      assert (gap + rest)[1..] == gap[1..] + rest;
      SkipSpacesOver(gap[1..], rest);
    }
  }

  lemma {:induction false} WordOver(w: string, rest: string)
    requires NoSpace(w)
    requires rest == "" || IsSpace(rest[0])
    ensures Word(w + rest) == w
  {
    if w == "" {
      assert w + rest == rest;
    } else {
      assert (w + rest)[1..] == w[1..] + rest;
      WordOver(w[1..], rest);
    }
  }

  /** Splitting takes off one word, whatever spacing precedes it. */
  lemma FieldsCons(gap: string, w: string, rest: string)
    requires forall i :: 0 <= i < |gap| ==> IsSpace(gap[i])
    requires IsWord(w)
    requires rest == "" || IsSpace(rest[0])
    ensures Fields(gap + w + rest) == [w] + Fields(rest)
  {
    assert gap + w + rest == gap + (w + rest);
    SkipSpacesOver(gap, w + rest);
    WordOver(w, rest);
    assert (w + rest)[|w|..] == rest;
  }

  lemma FieldsOfBlank(gap: string)
    requires forall i :: 0 <= i < |gap| ==> IsSpace(gap[i])
    ensures Fields(gap) == []
  {
    SkipSpacesOver(gap, "");
    assert gap + "" == gap;
  }
}

/**
 * String operations shared by the services: the text a StringBuilder holds
 * after a series of AppendLine calls (with "\n" as the line terminator), its
 * inverse, string.Join, and prefixing every element of a list.
 */
module Text {

  /** The text produced by calling AppendLine once per element of `lines`, in order. */
  function Unlines(lines: seq<string>): (text: string)
    ensures |lines| > 0 ==> |text| > 0 && text[|text| - 1] == '\n'
  {
    if |lines| == 0 then "" else lines[0] + "\n" + Unlines(lines[1..])
  }

  /** Appending two batches of lines appends their texts. */
  lemma {:induction false} UnlinesAppend(a: seq<string>, b: seq<string>)
    ensures Unlines(a + b) == Unlines(a) + Unlines(b)
  {
    if |a| == 0 {
      assert a + b == b;
    } else {
      assert (a + b)[1..] == a[1..] + b;
      UnlinesAppend(a[1..], b);
    }
  }

  /** The position of the first `c` in `s`, or |s| when there is none. */
  function IndexOf(s: string, c: char): (i: nat)
    ensures i <= |s|
    ensures forall j :: 0 <= j < i ==> s[j] != c
    ensures i < |s| ==> s[i] == c
  {
    if |s| == 0 || s[0] == c then 0 else 1 + IndexOf(s[1..], c)
  }

  /** No element of `lines` holds a newline. */
  predicate NewlineFree(lines: seq<string>)
  {
    forall k :: 0 <= k < |lines| ==> '\n' !in lines[k]
  }

  lemma NewlineFreeAppend(a: seq<string>, b: seq<string>)
    requires NewlineFree(a) && NewlineFree(b)
    ensures NewlineFree(a + b)
  {
    forall k | |a| <= k < |a + b|
      ensures '\n' !in (a + b)[k]
    {
      assert (a + b)[k] == b[k - |a|];
    }
  }

  /**
   * Splits a text into its newline-terminated lines (terminators removed); an
   * unterminated final fragment becomes a line of its own.
   */
  function LinesOf(text: string): (lines: seq<string>)
    ensures NewlineFree(lines)
    decreases |text|
  {
    if |text| == 0 then []
    else
      var i := IndexOf(text, '\n');
      if i == |text| then [text] else [text[..i]] + LinesOf(text[i + 1..])
  }

  /** Reading back the lines of an AppendLine text gives the lines appended, when none holds a newline. */
  lemma {:induction false} LinesOfUnlines(lines: seq<string>)
    requires NewlineFree(lines)
    ensures LinesOf(Unlines(lines)) == lines
  {
    if |lines| > 0 {
      var head := lines[0];
      var rest := Unlines(lines[1..]);
      var text := Unlines(lines);
      assert text == head + "\n" + rest;
      assert text[|head|] == '\n';
      var i := IndexOf(text, '\n');
      assert i == |head|;
      assert text[..i] == head;
      assert text[i + 1..] == rest;
      LinesOfUnlines(lines[1..]);
    }
  }

  /** Conversely, every text that is empty or ends in a newline is the AppendLine text of its lines. */
  lemma {:induction false} UnlinesLinesOf(text: string)
    requires |text| == 0 || text[|text| - 1] == '\n'
    ensures Unlines(LinesOf(text)) == text
    decreases |text|
  {
    if |text| > 0 {
      var i := IndexOf(text, '\n');
      assert i < |text|;
      var line, rest := text[..i], text[i + 1..];
      assert LinesOf(text) == [line] + LinesOf(rest);
      SplitAtNewline(text, i);
      UnlinesLinesOf(rest);
      assert Unlines([line] + LinesOf(rest)) == line + "\n" + Unlines(LinesOf(rest));
    }
  }

  /** Cutting a newline-terminated text at a newline leaves a newline-terminated (or empty) rest. */
  lemma SplitAtNewline(text: string, i: nat)
    requires i < |text| && text[i] == '\n' && text[|text| - 1] == '\n'
    ensures text == text[..i] + "\n" + text[i + 1..]
    ensures var rest := text[i + 1..]; |rest| == 0 || rest[|rest| - 1] == '\n'
  {
    assert text == text[..i] + [text[i]] + text[i + 1..];
  }

  /** string.Join: the parts in order with `sep` between neighbours. */
  function Join(parts: seq<string>, sep: string): (joined: string)
  {
    if |parts| == 0 then ""
    else if |parts| == 1 then parts[0]
    else parts[0] + sep + Join(parts[1..], sep)
  }

  /** The parts written one after another. */
  function Concat(parts: seq<string>): (joined: string)
  {
    if |parts| == 0 then "" else parts[0] + Concat(parts[1..])
  }

  predicate StartsWith(s: string, prefix: string)
  {
    |prefix| <= |s| && s[..|prefix|] == prefix
  }

  /** Every element of `xs` with `prefix` in front, in order. */
  function PrefixEach(prefix: string, xs: seq<string>): (ys: seq<string>)
    ensures |ys| == |xs|
    ensures forall k :: 0 <= k < |xs| ==> ys[k] == prefix + xs[k]
  {
    if |xs| == 0 then [] else [prefix + xs[0]] + PrefixEach(prefix, xs[1..])
  }

  lemma Assoc<T>(a: seq<T>, b: seq<T>, c: seq<T>)
    ensures a + b + c == a + (b + c)
  {
  }
}

/**
 * Line-oriented text. Every text the flashing code produces (the Memtool
 * batch script and the Memtool configuration) is a Rust string literal whose
 * lines are separated by `\n`, so a text is modelled as a sequence of lines
 * joined by single LF characters.
 */
module Lines {

  const LF: char := '\n'

  /** No line of `lines` contains an LF, so every element really is one line. */
  ghost predicate SingleLines(lines: seq<string>)
  {
    forall i | 0 <= i < |lines| :: LF !in lines[i]
  }

  /** The text made of `lines` separated by single LFs, with no LF after the last one. */
  function Join(lines: seq<string>): string
  {
    if |lines| == 0 then ""
    else if |lines| == 1 then lines[0]
    else lines[0] + [LF] + Join(lines[1..])
  }

  /**
   * Cuts `text` at every LF, as Rust's `str::split('\n')` does: a text with
   * k LFs gives k + 1 pieces, and a trailing LF gives an empty last piece.
   */
  function Split(text: string): (lines: seq<string>)
    ensures |lines| >= 1
    ensures SingleLines(lines)
    ensures |lines| == 1 <==> LF !in text
  {
    if text == [] then [""]
    else
      var rest := Split(text[1..]);
      if text[0] == LF then [""] + rest
      else [[text[0]] + rest[0]] + rest[1..]
  }

  /** A line without LF followed by an LF is the first piece of the split. */
  lemma {:induction false} SplitAfterLine(line: string, text: string)
    requires LF !in line
    ensures Split(line + [LF] + text) == [line] + Split(text)
    decreases |line|
  {
    if line == [] {
      assert line + [LF] + text == [LF] + text;
    } else {
      var t := line + [LF] + text;
      assert t[1..] == line[1..] + [LF] + text;
      SplitAfterLine(line[1..], text);
      assert [t[0]] + line[1..] == line;
    }
  }

  /** Splitting undoes joining whenever the pieces are single lines. */
  lemma {:induction false} SplitJoin(lines: seq<string>)
    requires |lines| >= 1 && SingleLines(lines)
    ensures Split(Join(lines)) == lines
    decreases |lines|
  {
    if |lines| == 1 {
      assert Split(lines[0]) == [lines[0]] by { SplitSingle(lines[0]); }
    } else {
      assert LF !in lines[0];
      SplitAfterLine(lines[0], Join(lines[1..]));
      SplitJoin(lines[1..]);
      assert [lines[0]] + lines[1..] == lines;
    }
  }

  /** A text without LF is a single line. */
  lemma {:induction false} SplitSingle(line: string)
    requires LF !in line
    ensures Split(line) == [line]
    decreases |line|
  {
    if line != [] {
      assert LF !in line[1..] by {
        forall i | 0 <= i < |line[1..]| ensures line[1..][i] != LF {
          assert line[1..][i] == line[i + 1];
        }
      }
      SplitSingle(line[1..]);
      assert [line[0]] + line[1..] == line;
    }
  }

  /** Joining undoes splitting: no character of the text is lost or added. */
  lemma {:induction false} JoinSplit(text: string)
    ensures Join(Split(text)) == text
    decreases |text|
  {
    if text != [] {
      var rest := Split(text[1..]);
      JoinSplit(text[1..]);
      if text[0] == LF {
        assert Split(text) == [""] + rest;
        assert ([""] + rest)[1..] == rest;
        assert text == [LF] + text[1..];
      } else {
        var lines := [[text[0]] + rest[0]] + rest[1..];
        assert Split(text) == lines;
        if |rest| == 1 {
          assert text == [text[0]] + rest[0];
        } else {
          assert lines[1..] == rest[1..];
          assert Join(rest) == rest[0] + [LF] + Join(rest[1..]);
          assert text == [text[0]] + text[1..];
        }
      }
    }
  }

  /** Joining two non-empty blocks of lines puts one LF between their texts. */
  lemma {:induction false} JoinAppend(a: seq<string>, b: seq<string>)
    requires |a| >= 1 && |b| >= 1
    ensures Join(a + b) == Join(a) + [LF] + Join(b)
    decreases |a|
  {
    if |a| == 1 {
      assert (a + b)[1..] == b;
    } else {
      assert (a + b)[1..] == a[1..] + b;
      JoinAppend(a[1..], b);
    }
  }

  /** Joining a line in front of a non-empty block of lines puts one LF after it. */
  lemma JoinCons(line: string, lines: seq<string>)
    requires |lines| >= 1
    ensures Join([line] + lines) == line + [LF] + Join(lines)
  {
    assert ([line] + lines)[1..] == lines;
  }

  /** Two lines in front of a non-empty block of lines are each followed by one LF. */
  lemma JoinConsCons(first: string, second: string, lines: seq<string>)
    requires |lines| >= 1
    ensures Join([first, second] + lines) == first + [LF] + second + [LF] + Join(lines)
  {
    var a, b, j := first + [LF], second + [LF], Join(lines);
    assert [first, second] + lines == [first] + ([second] + lines);
    JoinCons(second, lines);
    JoinCons(first, [second] + lines);
    AppendAssoc(a, b, j);
    AppendAssoc(a, second, [LF]);
  }

  /** Concatenation of texts is associative. */
  lemma AppendAssoc(a: string, b: string, c: string)
    ensures a + (b + c) == a + b + c
  {
  }

  /** A text of two or more lines starts with its first line and an LF. */
  lemma JoinFirst(lines: seq<string>)
    requires |lines| >= 2
    ensures |lines[0]| < |Join(lines)|
    ensures Join(lines)[..|lines[0]| + 1] == lines[0] + [LF]
  {
    assert Join(lines) == lines[0] + [LF] + Join(lines[1..]);
  }

  /** A text ends with its last line: nothing, not even an LF, follows it. */
  lemma JoinLast(lines: seq<string>)
    requires |lines| >= 1
    ensures var last := lines[|lines| - 1];
      |last| <= |Join(lines)| && Join(lines)[|Join(lines)| - |last|..] == last
  {
    if |lines| >= 2 {
      var init := lines[..|lines| - 1];
      JoinAppend(init, [lines[|lines| - 1]]);
      assert init + [lines[|lines| - 1]] == lines;
    }
  }

  /** `text` ends with `suffix`. */
  predicate EndsWith(text: string, suffix: string)
  {
    |suffix| <= |text| && text[|text| - |suffix|..] == suffix
  }

  /** `text` starts with `prefix`. */
  predicate StartsWith(text: string, prefix: string)
  {
    |prefix| <= |text| && text[..|prefix|] == prefix
  }

  /** Whatever comes before a text does not change how it ends. */
  lemma EndsWithAppend(front: string, text: string, suffix: string)
    requires EndsWith(text, suffix)
    ensures EndsWith(front + text, suffix)
  {
    assert (front + text)[|front + text| - |suffix|..] == text[|text| - |suffix|..];
  }

  /** `prefix` is a proper prefix of `text`. */
  predicate IsStrictPrefix(prefix: string, text: string)
  {
    |prefix| < |text| && text[..|prefix|] == prefix
  }
}

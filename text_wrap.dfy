/**
 * `wrapText` of the scene image generator: greedy word wrapping of a speech-bubble
 * text into lines of at most `maxCharsPerLine` characters, where a word longer
 * than a line is cut into chunks of exactly `maxCharsPerLine` characters.
 *
 * The loop is the method `WrapText`; it is proved against the functional
 * definition `Wrap`, about which the properties are proved as lemmas.
 * `Wrap` takes a flag `dropEmpty`: `false` is the code as written, `true` is the
 * corrected wrapper that never emits the empty current line (see `LeadingEmptyLine`).
 */
module TextWrap {

  /** `s.split(' ')`: the pieces between single spaces, so n spaces give n + 1 words. */
  function Split(s: string): (words: seq<string>)
    ensures |words| >= 1
    ensures forall i :: 0 <= i < |words| ==> ' ' !in words[i]
    decreases |s|
  {
    if s == [] then [[]]
    else
      var rest := Split(s[1..]);
      if s[0] == ' ' then [[]] + rest
      else [[s[0]] + rest[0]] + rest[1..]
  }

  /** `words.join(' ')`. */
  function Join(words: seq<string>): string
    decreases |words|
  {
    if |words| == 0 then []
    else if |words| == 1 then words[0]
    else words[0] + " " + Join(words[1..])
  }

  /** The lines glued together with nothing in between. */
  function Concat(lines: seq<string>): string
  {
    if lines == [] then [] else lines[0] + Concat(lines[1..])
  }

  /** The characters of `s` that are not spaces, in order. */
  function Strip(s: string): string
  {
    if s == [] then [] else (if s[0] == ' ' then [] else [s[0]]) + Strip(s[1..])
  }

  // ---------------------------------------------------------------------------
  // Splitting on spaces

  lemma {:induction false} SplitJoin(s: string)
    ensures Join(Split(s)) == s
    decreases |s|
  {
    if s != [] {
      SplitJoin(s[1..]);
      var rest := Split(s[1..]);
      if s[0] == ' ' {
        assert Join([[]] + rest) == [] + " " + Join(rest);
      } else if |rest| == 1 {
        assert Join([[s[0]] + rest[0]] + rest[1..]) == [s[0]] + rest[0];
      } else {
        var words := [[s[0]] + rest[0]] + rest[1..];
        assert words[1..] == rest[1..];
        assert Join(rest) == rest[0] + " " + Join(rest[1..]);
        assert Join(words) == [s[0]] + rest[0] + " " + Join(rest[1..]);
      }
    }
  }

  lemma {:induction false} SplitWord(w: string)
    requires ' ' !in w
    ensures Split(w) == [w]
    decreases |w|
  {
    if w != [] {
      SplitWord(w[1..]);
      assert [w[0]] + w[1..] == w;
    }
  }

  lemma {:induction false} SplitPrefix(a: string, s: string)
    requires ' ' !in a
    ensures Split(a + " " + s) == [a] + Split(s)
    decreases |a|
  {
    var t := a + " " + s;
    if a == [] {
      assert t[0] == ' ' && t[1..] == s;
    } else {
      assert t[0] == a[0] && t[1..] == a[1..] + " " + s;
      SplitPrefix(a[1..], s);
      assert [a[0]] + a[1..] == a;
    }
  }

  /** Splitting undoes joining words that hold no space. */
  lemma {:induction false} JoinSplit(words: seq<string>)
    requires |words| >= 1
    requires forall i :: 0 <= i < |words| ==> ' ' !in words[i]
    ensures Split(Join(words)) == words
    decreases |words|
  {
    if |words| == 1 {
      SplitWord(words[0]);
    } else {
      JoinSplit(words[1..]);
      SplitPrefix(words[0], Join(words[1..]));
      assert [words[0]] + words[1..] == words;
    }
  }

  // ---------------------------------------------------------------------------
  // Concatenation and stripping spaces

  lemma {:induction false} ConcatAppend(a: seq<string>, b: seq<string>)
    ensures Concat(a + b) == Concat(a) + Concat(b)
    decreases |a|
  {
    if a != [] {
      assert (a + b)[1..] == a[1..] + b;
      ConcatAppend(a[1..], b);
    } else {
      assert a + b == b;
    }
  }

  lemma {:induction false} StripAppend(a: string, b: string)
    ensures Strip(a + b) == Strip(a) + Strip(b)
    decreases |a|
  {
    if a != [] {
      assert (a + b)[1..] == a[1..] + b;
      StripAppend(a[1..], b);
    } else {
      assert a + b == b;
    }
  }

  lemma {:induction false} StripIsWords(s: string)
    ensures Strip(s) == Concat(Split(s))
    decreases |s|
  {
    if s != [] {
      StripIsWords(s[1..]);
      var rest := Split(s[1..]);
      if s[0] != ' ' {
        var words := [[s[0]] + rest[0]] + rest[1..];
        assert words[1..] == rest[1..];
        assert Concat(rest) == rest[0] + Concat(rest[1..]);
      }
    }
  }

  lemma {:induction false} StripNoSpace(w: string)
    requires ' ' !in w
    ensures Strip(w) == w
    decreases |w|
  {
    if w != [] {
      StripNoSpace(w[1..]);
      assert [w[0]] + w[1..] == w;
    }
  }

  lemma {:induction false} StripWords(words: seq<string>)
    requires forall i :: 0 <= i < |words| ==> ' ' !in words[i]
    ensures Strip(Concat(words)) == Concat(words)
    decreases |words|
  {
    if words != [] {
      StripWords(words[1..]);
      StripNoSpace(words[0]);
      StripAppend(words[0], Concat(words[1..]));
    }
  }

  // ---------------------------------------------------------------------------
  // The wrapper

  /** The wrapper's loop state: the lines emitted so far and `currentLine`. */
  datatype State = State(lines: seq<string>, current: string)

  /** The inner `while`: cut a long word into chunks of exactly `max` characters and a remainder. */
  function Chop(word: string, max: nat): (r: (seq<string>, string))
    requires max >= 1
    ensures forall i :: 0 <= i < |r.0| ==> |r.0[i]| == max
    ensures |r.1| <= max
    ensures Concat(r.0) + r.1 == word
    decreases |word|
  {
    if |word| <= max then ([], word)
    else
      var rest := Chop(word[max..], max);
      assert Concat([word[..max]] + rest.0) == word[..max] + Concat(rest.0);
      ([word[..max]] + rest.0, rest.1)
  }

  /** What is emitted when a word does not fit: as written, the current line even when it is empty. */
  function Flush(current: string, dropEmpty: bool): seq<string>
  {
    if dropEmpty && current == [] then [] else [current]
  }

  /** One iteration of the `forEach` over the words. */
  function Place(st: State, word: string, max: nat, dropEmpty: bool): State
    requires max >= 1
  {
    var test := if st.current != [] then st.current + " " + word else word;
    if |test| <= max then State(st.lines, test)
    else
      var chopped := Chop(word, max);
      State(st.lines + Flush(st.current, dropEmpty) + chopped.0, chopped.1)
  }

  /** The loop state after the given words, taken left to right. */
  function Fold(words: seq<string>, max: nat, dropEmpty: bool): State
    requires max >= 1
    decreases |words|
  {
    if words == [] then State([], [])
    else Place(Fold(words[..|words| - 1], max, dropEmpty), words[|words| - 1], max, dropEmpty)
  }

  /** After the loop: emit a non-empty current line, and answer `['']` rather than no line at all. */
  function Finish(st: State): seq<string>
  {
    var lines := if st.current != [] then st.lines + [st.current] else st.lines;
    if lines == [] then [[]] else lines
  }

  function Wrap(text: string, max: nat, dropEmpty: bool): (lines: seq<string>)
    requires max >= 1
    ensures |lines| >= 1
    ensures text == [] ==> lines == [[]]
  {
    assert text == [] ==> Split(text) == [[]] && Fold([[]], max, dropEmpty) == State([], []);
    Finish(Fold(Split(text), max, dropEmpty))
  }

  ghost predicate Bounded(st: State, max: nat)
  {
    && (forall i :: 0 <= i < |st.lines| ==> |st.lines[i]| <= max)
    && |st.current| <= max
  }

  ghost predicate NoEmptyLines(lines: seq<string>)
  {
    forall i :: 0 <= i < |lines| ==> lines[i] != []
  }

  lemma PlaceInvariant(st: State, word: string, max: nat, dropEmpty: bool)
    requires max >= 1 && Bounded(st, max)
    ensures var st' := Place(st, word, max, dropEmpty);
      && Bounded(st', max)
      && Strip(Concat(st'.lines) + st'.current) == Strip(Concat(st.lines) + st.current) + Strip(word)
      && (dropEmpty && NoEmptyLines(st.lines) ==> NoEmptyLines(st'.lines))
  {
    var test := if st.current != [] then st.current + " " + word else word;
    if |test| <= max {
      PlaceJoins(st, word);
    } else {
      PlaceSpills(st, word, max, dropEmpty);
    }
  }

  /** The word joins the current line: only a space is added. */
  lemma PlaceJoins(st: State, word: string)
    ensures var test := if st.current != [] then st.current + " " + word else word;
      Strip(Concat(st.lines) + test) == Strip(Concat(st.lines) + st.current) + Strip(word)
  {
    var prefix := Concat(st.lines) + st.current;
    if st.current != [] {
      assert Concat(st.lines) + (st.current + " " + word) == (prefix + " ") + word;
      StripAppend(prefix + " ", word);
      StripAppend(prefix, " ");
      assert Strip(" ") == [];
    } else {
      assert Concat(st.lines) + word == prefix + word;
      StripAppend(prefix, word);
    }
  }

  /** The current line is flushed and the word is chopped. */
  lemma PlaceSpills(st: State, word: string, max: nat, dropEmpty: bool)
    requires max >= 1 && Bounded(st, max)
    ensures var chopped := Chop(word, max);
      var lines := st.lines + Flush(st.current, dropEmpty) + chopped.0;
      && Bounded(State(lines, chopped.1), max)
      && Strip(Concat(lines) + chopped.1) == Strip(Concat(st.lines) + st.current) + Strip(word)
      && (dropEmpty && NoEmptyLines(st.lines) ==> NoEmptyLines(lines))
  {
    SpillKeepsCharacters(st.lines, st.current, word, max, dropEmpty);
    var chopped := Chop(word, max);
    var flushed := Flush(st.current, dropEmpty);
    var lines := st.lines + flushed + chopped.0;
    forall i | 0 <= i < |lines| ensures |lines[i]| <= max && (dropEmpty && NoEmptyLines(st.lines) ==> lines[i] != []) {
      if i < |st.lines| {
        assert lines[i] == st.lines[i];
      } else if i < |st.lines| + |flushed| {
        assert lines[i] == st.current;
      } else {
        assert lines[i] == chopped.0[i - |st.lines| - |flushed|];
      }
    }
  }

  lemma SpillKeepsCharacters(lines: seq<string>, current: string, word: string, max: nat, dropEmpty: bool)
    requires max >= 1
    ensures var chopped := Chop(word, max);
      Strip(Concat(lines + Flush(current, dropEmpty) + chopped.0) + chopped.1)
        == Strip(Concat(lines) + current) + Strip(word)
  {
    var chopped := Chop(word, max);
    var flushed := Flush(current, dropEmpty);
    assert Concat(flushed) == current by {
      if flushed != [] {
        assert Concat(flushed) == flushed[0] + Concat([]);
      }
    }
    calc {
      Concat(lines + flushed + chopped.0) + chopped.1;
      { ConcatAppend(lines + flushed, chopped.0); }
      Concat(lines + flushed) + Concat(chopped.0) + chopped.1;
      { ConcatAppend(lines, flushed); }
      Concat(lines) + current + (Concat(chopped.0) + chopped.1);
      Concat(lines) + current + word;
    }
    StripAppend(Concat(lines) + current, word);
  }

  lemma {:induction false} FoldInvariant(words: seq<string>, max: nat, dropEmpty: bool)
    requires max >= 1
    ensures var st := Fold(words, max, dropEmpty);
      && Bounded(st, max)
      && Strip(Concat(st.lines) + st.current) == Strip(Concat(words))
      && (dropEmpty ==> NoEmptyLines(st.lines))
    decreases |words|
  {
    if words != [] {
      var init, last := words[..|words| - 1], words[|words| - 1];
      FoldInvariant(init, max, dropEmpty);
      PlaceInvariant(Fold(init, max, dropEmpty), last, max, dropEmpty);
      var st := Fold(init, max, dropEmpty);
      assert Fold(words, max, dropEmpty) == Place(st, last, max, dropEmpty);
      assert words == init + [last];
      calc {
        Strip(Concat(words));
        { ConcatAppend(init, [last]);
          assert [last][1..] == [];
          assert Concat([last]) == last; }
        Strip(Concat(init) + last);
        { StripAppend(Concat(init), last); }
        Strip(Concat(init)) + Strip(last);
        Strip(Concat(st.lines) + st.current) + Strip(last);
      }
    }
  }

  lemma FinishConcat(st: State)
    ensures Concat(Finish(st)) == Concat(st.lines) + st.current
  {
    if st.current != [] {
      ConcatAppend(st.lines, [st.current]);
    }
  }

  /** No emitted line is longer than `max` characters. */
  lemma WrapLinesFit(text: string, max: nat, dropEmpty: bool)
    requires max >= 1
    ensures var lines := Wrap(text, max, dropEmpty);
      forall i :: 0 <= i < |lines| ==> |lines[i]| <= max
  {
    FoldInvariant(Split(text), max, dropEmpty);
  }

  /** Only spaces are lost or added: the non-space characters come out in their input order. */
  lemma WrapKeepsCharacters(text: string, max: nat, dropEmpty: bool)
    requires max >= 1
    ensures Strip(Concat(Wrap(text, max, dropEmpty))) == Strip(text)
  {
    var st := Fold(Split(text), max, dropEmpty);
    FoldInvariant(Split(text), max, dropEmpty);
    FinishConcat(st);
    StripIsWords(text);
    StripWords(Split(text));
  }

  /**
   * One step of the `forEach`, from whatever state the earlier words left: a word
   * that fits after the current line joins it with one space (or becomes the line
   * when it is empty); a word that fits a line but not the current one moves the
   * current line out and starts a new one.
   */
  lemma {:induction false} GreedyStep(words: seq<string>, word: string, max: nat, dropEmpty: bool)
    requires max >= 1
    ensures var st := Fold(words, max, dropEmpty);
      var after := Fold(words + [word], max, dropEmpty);
      && (st.current != [] && |st.current| + 1 + |word| <= max ==> after == State(st.lines, st.current + " " + word))
      && (st.current == [] && |word| <= max ==> after == State(st.lines, word))
      && (st.current != [] && |word| <= max < |st.current| + 1 + |word| ==> after == State(st.lines + [st.current], word))
  {
    assert (words + [word])[..|words|] == words;
  }

  /**
   * Greedy placement: a second word that fits is joined to the first with one space;
   * one that does not fit starts a new line.
   */
  lemma GreedyJoin(a: string, b: string, max: nat)
    requires max >= 1 && ' ' !in a && ' ' !in b && a != [] && b != []
    ensures |a| + 1 + |b| <= max ==> Wrap(a + " " + b, max, false) == [a + " " + b]
    ensures |a| <= max && |b| <= max < |a| + 1 + |b| ==> Wrap(a + " " + b, max, false) == [a, b]
  {
    SplitPrefix(a, b);
    SplitWord(b);
    var words := [a, b];
    assert Split(a + " " + b) == words;
    assert words[..1] == [a];
    assert [a][..0] == [];
    if |a| <= max {
      assert Fold([a], max, false) == State([], a);
    }
  }

  /**
   * As written: when the first word is longer than a line, the empty current line is
   * emitted first, so the bubble starts with a blank line.
   * The corrected wrapper starts with the word's first chunk.
   */
  lemma LeadingEmptyLine(word: string, max: nat)
    requires max >= 1 && ' ' !in word && |word| > max
    ensures Wrap(word, max, false)[0] == []
    ensures Wrap(word, max, true)[0] == word[..max]
  {
    SplitWord(word);
    assert [word][..0] == [];
    var chopped := Chop(word, max);
    assert chopped.0[0] == word[..max];
    assert Fold([word], max, false).lines == [[]] + chopped.0;
    assert Fold([word], max, true).lines == chopped.0;
  }

  /** The corrected wrapper emits no empty line, unless the whole answer is `['']`. */
  lemma WrapFixedHasNoEmptyLines(text: string, max: nat)
    requires max >= 1
    ensures var lines := Wrap(text, max, true);
      lines == [[]] || NoEmptyLines(lines)
  {
    FoldInvariant(Split(text), max, true);
  }

  /** The loop of `wrapText`, as written. */
  method WrapText(text: string, maxCharsPerLine: nat) returns (lines: seq<string>)
    requires maxCharsPerLine >= 1
    ensures lines == Wrap(text, maxCharsPerLine, false)
  {
    var words := Split(text);
    lines := [];
    var currentLine: string := [];
    for i := 0 to |words|
      invariant State(lines, currentLine) == Fold(words[..i], maxCharsPerLine, false)
    {
      var word := words[i];
      var testLine := if currentLine != [] then currentLine + " " + word else word;
      if |testLine| <= maxCharsPerLine {
        currentLine := testLine;
      } else {
        lines := lines + [currentLine];
        currentLine := word;
        ghost var flushed := lines;
        while |currentLine| > maxCharsPerLine
          invariant lines + Chop(currentLine, maxCharsPerLine).0 == flushed + Chop(word, maxCharsPerLine).0
          invariant Chop(currentLine, maxCharsPerLine).1 == Chop(word, maxCharsPerLine).1
          decreases |currentLine|
        {
          lines := lines + [currentLine[..maxCharsPerLine]];
          currentLine := currentLine[maxCharsPerLine..];
        }
      }
      assert words[..i + 1][..i] == words[..i];
    }
    assert words[..|words|] == words;
    if currentLine != [] {
      lines := lines + [currentLine];
    }
    if |lines| == 0 {
      lines := [[]];
    }
  }
}

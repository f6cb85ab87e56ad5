/**
 * The overlay's reading of the chat model's reply into review questions
 * and their numbering on screen (`generateQuestions`, `displayQuestions`).
 * The reply is cut into lines; blank lines are dropped; from each line a
 * leading numbering (digits, then a full stop or a closing parenthesis,
 * then any whitespace) is removed once and the rest is trimmed; lines left
 * empty are dropped. The question at index `i` is shown as its one-based
 * number, a full stop, a space and the question.
 */
module Questions {
  import opened Strings

  // ------------------------------------------------- numbering prefix

  /** The length of the run of decimal digits that starts `s`. */
  function LeadingDigits(s: string): (k: nat)
    ensures k <= |s|
    ensures forall i :: 0 <= i < k ==> IsDigit(s[i])
    ensures k < |s| ==> !IsDigit(s[k])
    decreases |s|
  {
    if s != [] && IsDigit(s[0]) then 1 + LeadingDigits(s[1..]) else 0
  }

  /**
   * A numbering starts the line: one or more digits, then a full stop or
   * a closing parenthesis. Digits are never `.` or `)`, so
   * the only candidate is the whole leading run of digits.
   */
  predicate StartsWithNumbering(line: string) {
    var k := LeadingDigits(line);
    0 < k < |line| && (line[k] == '.' || line[k] == ')')
  }

  /**
   * The numbering replacement: the numbering and the whitespace after it
   * go, once; a line that does not start with a numbering is left as it is.
   */
  function StripNumbering(line: string): (r: string)
    ensures |r| <= |line| && r == line[|line| - |r|..]
    ensures r == line <==> !StartsWithNumbering(line)
  {
    if StartsWithNumbering(line) then TrimStart(line[LeadingDigits(line) + 1..]) else line
  }

  /** The digit run of a line made of digits then a non-digit is exactly those digits. */
  lemma LeadingDigitsOf(d: string, t: string)
    requires AllDigits(d)
    requires t == [] || !IsDigit(t[0])
    ensures LeadingDigits(d + t) == |d|
  {
    var s := d + t;
    assert forall i :: 0 <= i < |d| ==> IsDigit(s[i]) by {
      forall i | 0 <= i < |d| ensures IsDigit(s[i]) {
        assert s[i] == d[i];
      }
    }
    assert |d| < |s| ==> !IsDigit(s[|d|]) by {
      if |d| < |s| {
        assert s[|d|] == t[0];
      }
    }
  }

  /**
   * Exactly one numbering is removed, with the whitespace after it, and
   * whatever follows is kept even if it starts with a numbering of its own.
   */
  lemma StripOneNumbering(d: string, c: char, w: string, q: string)
    requires |d| > 0 && AllDigits(d)
    requires c == '.' || c == ')'
    requires AllWhitespace(w)
    requires q == [] || !IsWhitespace(q[0])
    ensures StripNumbering(d + [c] + w + q) == q
  {
    var line := d + [c] + w + q;
    assert line == d + ([c] + w + q);
    LeadingDigitsOf(d, [c] + w + q);
    assert line[|d|] == c;
    assert line[|d| + 1..] == w + q;
    TrimStartOfPadded(w, q);
  }

  // ----------------------------------------------------------- the chain

  /** One line as the `map` step leaves it: numbering removed, then trimmed. */
  function CleanLine(line: string): (r: string)
    ensures IsTrimmed(r)
  {
    Trim(StripNumbering(line))
  }

  /** Cleaning only removes characters: what is left comes from the line. */
  lemma CleanLineChars(line: string)
    ensures forall c :: c in CleanLine(line) ==> c in line
  {
    var stripped := StripNumbering(line);
    assert stripped[..|stripped|] == stripped;
    PrefixOfSuffixChars(line, stripped, stripped);
    TrimChars(stripped);
  }



  /**
   * The first `filter`'s test, that the trimmed line is not empty: by
   * `Trim`'s contract, that is a line not made only of whitespace.
   */
  predicate NonBlank(line: string) {
    !AllWhitespace(line)
  }

  lemma NonBlankIsTrimNonEmpty(line: string)
    ensures NonBlank(line) <==> Trim(line) != []
  {
  }

  predicate NonEmpty(q: string) {
    |q| > 0
  }

  /** `Array.prototype.filter`: the elements that pass. */
  function Filter<T>(s: seq<T>, keep: T -> bool): (r: seq<T>)
    ensures |r| <= |s|
    ensures forall x :: x in r ==> x in s && keep(x)
    decreases |s|
  {
    if s == [] then [] else (if keep(s[0]) then [s[0]] else []) + Filter(s[1..], keep)
  }

  /** Filtering a concatenation filters the two parts, in order. */
  lemma {:induction false} FilterAppend<T>(a: seq<T>, b: seq<T>, keep: T -> bool)
    ensures Filter(a + b, keep) == Filter(a, keep) + Filter(b, keep)
    decreases |a|
  {
    if a == [] {
      assert a + b == b;
    } else {
      assert (a + b)[0] == a[0] && (a + b)[1..] == a[1..] + b;
      FilterAppend(a[1..], b, keep);
    }
  }

  /** Every element that passes is kept. */
  lemma {:induction false} FilterKeepsPassing<T>(s: seq<T>, keep: T -> bool)
    ensures forall x :: x in s && keep(x) ==> x in Filter(s, keep)
    decreases |s|
  {
    if s != [] {
      FilterKeepsPassing(s[1..], keep);
      forall x | x in s && keep(x)
        ensures x in Filter(s, keep)
      {
        if x != s[0] {
          assert x in s[1..];
        }
      }
    }
  }

  /** `Array.prototype.map`: every element transformed, position for position. */
  function Map<T, U>(s: seq<T>, f: T -> U): (r: seq<U>)
    ensures |r| == |s|
    ensures forall i :: 0 <= i < |s| ==> r[i] == f(s[i])
    decreases |s|
  {
    if s == [] then [] else [f(s[0])] + Map(s[1..], f)
  }

  /** What every parsed question is: nonempty, on one line, no whitespace at either end. */
  predicate IsQuestion(q: string) {
    q != [] && IsTrimmed(q) && '\n' !in q
  }

  /** The whole chain from the model's reply to the list of questions. */
  function ParseQuestions(reply: string): seq<string> {
    Filter(Map(Filter(Split(reply, '\n'), NonBlank), CleanLine), NonEmpty)
  }

  // ------------------------------------------------ reference: line by line

  /**
   * A parse as one pass over the lines: each line in turn contributes its
   * cleaned text, or nothing when that is empty.
   */
  function Compact(lines: seq<string>, clean: string -> string): seq<string>
    decreases |lines|
  {
    if lines == [] then []
    else (if clean(lines[0]) == [] then [] else [clean(lines[0])]) + Compact(lines[1..], clean)
  }

  /** A blank line cleans to nothing, so the first `filter` never changes the result. */
  lemma BlankLineCleansToEmpty(line: string)
    requires !NonBlank(line)
    ensures CleanLine(line) == []
  {
    assert AllWhitespace(line);
    if line != [] {
      assert !IsDigit(line[0]);
    }
    assert LeadingDigits(line) == 0;
  }

  /** Dropping lines that clean to nothing before cleaning, and empty results after it, is one pass. */
  lemma {:induction false} ChainIsCompact(lines: seq<string>, keep: string -> bool, clean: string -> string)
    requires forall line :: !keep(line) ==> clean(line) == []
    ensures Filter(Map(Filter(lines, keep), clean), NonEmpty) == Compact(lines, clean)
    decreases |lines|
  {
    if lines != [] {
      var rest := lines[1..];
      ChainIsCompact(rest, keep, clean);
      var l := lines[0];
      var kept := Filter(rest, keep);
      assert Filter(lines, keep) == (if keep(l) then [l] else []) + kept;
      if keep(l) {
        var k := [l] + kept;
        assert k[0] == l && k[1..] == kept;
        var c := Map(k, clean);
        assert c == [clean(l)] + Map(kept, clean);
        assert c[0] == clean(l) && c[1..] == Map(kept, clean);
        var head := if clean(l) == [] then [] else [clean(l)];
        calc {
          Filter(Map(Filter(lines, keep), clean), NonEmpty);
          Filter(c, NonEmpty);
          head + Filter(Map(kept, clean), NonEmpty);
          head + Compact(rest, clean);
          Compact(lines, clean);
        }
      } else {
        assert clean(l) == [];
        assert Filter(lines, keep) == [] + kept == kept;
        assert Compact(lines, clean) == [] + Compact(rest, clean);
        assert [] + Compact(rest, clean) == Compact(rest, clean);
      }
    }
  }

  /** Every element of a one-pass parse is a nonempty result of cleaning, and there are no more of them than lines. */
  lemma {:induction false} CompactKeeps(lines: seq<string>, clean: string -> string, good: string -> bool)
    requires forall i :: 0 <= i < |lines| ==> clean(lines[i]) == [] || good(clean(lines[i]))
    ensures forall q :: q in Compact(lines, clean) ==> q != [] && good(q)
    ensures |Compact(lines, clean)| <= |lines|
    decreases |lines|
  {
    if lines != [] {
      CompactKeeps(lines[1..], clean, good);
    }
  }

  /** The parse is the line-by-line pass over the reply's lines. */
  lemma ParseQuestionsIsCompact(reply: string)
    ensures ParseQuestions(reply) == Compact(Split(reply, '\n'), CleanLine)
  {
    forall line | !NonBlank(line) ensures CleanLine(line) == [] {
      BlankLineCleansToEmpty(line);
    }
    ChainIsCompact(Split(reply, '\n'), NonBlank, CleanLine);
  }

  /**
   * Every parsed question is nonempty, on one line and trimmed, and there
   * are at most as many questions as lines in the reply.
   */
  lemma ParseQuestionsWellFormed(reply: string)
    ensures forall q :: q in ParseQuestions(reply) ==> IsQuestion(q)
    ensures |ParseQuestions(reply)| <= |Split(reply, '\n')|
  {
    var lines := Split(reply, '\n');
    forall i | 0 <= i < |lines| ensures CleanLine(lines[i]) == [] || IsQuestion(CleanLine(lines[i])) {
      assert '\n' !in lines[i];
      CleanLineChars(lines[i]);
    }
    CompactKeeps(lines, CleanLine, IsQuestion);
    ParseQuestionsIsCompact(reply);
  }

  lemma {:induction false} CompactAppend(a: seq<string>, b: seq<string>, clean: string -> string)
    ensures Compact(a + b, clean) == Compact(a, clean) + Compact(b, clean)
    decreases |a|
  {
    if a == [] {
      assert a + b == b;
    } else {
      assert (a + b)[1..] == a[1..] + b;
      CompactAppend(a[1..], b, clean);
    }
  }

  /**
   * Order is kept: the questions of two replies joined by a line break
   * are the questions of the first followed by those of the second.
   */
  lemma ParseQuestionsAppend(first: string, second: string)
    ensures ParseQuestions(first + "\n" + second) == ParseQuestions(first) + ParseQuestions(second)
  {
    SplitConcat(first, second, '\n');
    CompactAppend(Split(first, '\n'), Split(second, '\n'), CleanLine);
    ParseQuestionsIsCompact(first + "\n" + second);
    ParseQuestionsIsCompact(first);
    ParseQuestionsIsCompact(second);
  }

  // ------------------------------------------------------------ labels

  /** An item's text: the one-based number, a full stop, a space, the question. */
  function Label(index: nat, question: string): string {
    NatToString(index + 1) + ". " + question
  }

  /** The labels in the order of the questions, numbered from 1. */
  function Labels(questions: seq<string>): (r: seq<string>)
    ensures |r| == |questions|
  {
    seq(|questions|, i requires 0 <= i < |questions| => Label(i, questions[i]))
  }

  /** What the question list shows: the empty-state note, or the numbered items. */
  datatype QuestionList = NoQuestions | Items(labels: seq<string>)

  function Display(questions: seq<string>): (r: QuestionList)
    ensures r == NoQuestions <==> questions == []
    ensures r.Items? ==> r.labels == Labels(questions)
  {
    if |questions| == 0 then NoQuestions else Items(Labels(questions))
  }

  /** A label cleans back to its question: the number goes and nothing else. */
  lemma LabelCleansToQuestion(index: nat, q: string)
    requires IsQuestion(q)
    ensures CleanLine(Label(index, q)) == q
  {
    var d := NatToString(index + 1);
    var line := Label(index, q);
    assert line == d + ['.'] + [' '] + q;
    StripOneNumbering(d, '.', [' '], q);
    assert StripNumbering(line) == q;
    TrimOfTrimmed(q);
    assert CleanLine(line) == Trim(q);
  }

  /** A label of a one-line question is one line. */
  lemma LabelIsOneLine(index: nat, q: string)
    requires '\n' !in q
    ensures '\n' !in Label(index, q)
  {
    var d := NatToString(index + 1);
    NumeralExcludes(d, '\n');
    assert Label(index, q) == d + (". " + q);
  }

  lemma {:induction false} CompactOfCleaning(lines: seq<string>, qs: seq<string>, clean: string -> string)
    requires |lines| == |qs|
    requires forall i :: 0 <= i < |qs| ==> qs[i] != [] && clean(lines[i]) == qs[i]
    ensures Compact(lines, clean) == qs
    decreases |lines|
  {
    if lines != [] {
      CompactOfCleaning(lines[1..], qs[1..], clean);
      assert qs == [qs[0]] + qs[1..];
    }
  }

  /**
   * The labels of well-formed questions, written one per line, parse back
   * into exactly those questions: the number each label adds is the one
   * prefix the parser removes.
   */
  lemma LabelsRoundTrip(questions: seq<string>)
    requires forall i :: 0 <= i < |questions| ==> IsQuestion(questions[i])
    ensures ParseQuestions(Join(Labels(questions), '\n')) == questions
  {
    var labels := Labels(questions);
    forall i | 0 <= i < |questions|
      ensures CleanLine(labels[i]) == questions[i] && '\n' !in labels[i]
    {
      LabelCleansToQuestion(i, questions[i]);
      LabelIsOneLine(i, questions[i]);
    }
    if questions == [] {
      assert Split(Join(labels, '\n'), '\n') == [[]];
      assert CleanLine([]) == [];
    } else {
      SplitJoin(labels, '\n');
      CompactOfCleaning(labels, questions, CleanLine);
    }
    ParseQuestionsIsCompact(Join(labels, '\n'));
  }
}

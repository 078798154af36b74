/** Text lines as `std::getline` delivers them (the newline byte stripped),
    shared by the serial command framer and the two shader file readers. */
module Lines {

  /** No line handed over by `getline`, and no finished command token, holds
      the newline byte. */
  predicate NoNewline(s: string)
  {
    '\n' !in s
  }

  predicate AllNoNewline(lines: seq<string>)
  {
    forall i :: 0 <= i < |lines| ==> NoNewline(lines[i])
  }

  /** Every line followed by one newline, in order: what a loop that appends
      `line << '\n'` builds. Defined from the last line so that it grows the
      way such a loop grows it. */
  function JoinLines(lines: seq<string>): string
  {
    if lines == [] then "" else JoinLines(lines[..|lines| - 1]) + lines[|lines| - 1] + "\n"
  }

  /** The contents of a text file as the readers see it: either it does not
      open, or it is the sequence of its lines. */
  datatype SourceFile = Unopenable | Lines(lines: seq<string>)

  /** Joining is a homomorphism from sequence concatenation to string
      concatenation. */
  lemma {:induction false} JoinLinesAppend(a: seq<string>, b: seq<string>)
    ensures JoinLines(a + b) == JoinLines(a) + JoinLines(b)
    decreases |b|
  {
    if b == [] {
      assert a + b == a;
    } else {
      var b' := b[..|b| - 1];
      assert (a + b)[..|a + b| - 1] == a + b';
      JoinLinesAppend(a, b');
    }
  }

  /** The joined text is empty exactly when there are no lines. */
  lemma JoinLinesEmpty(lines: seq<string>)
    ensures JoinLines(lines) == "" <==> lines == []
  {
    if lines != [] {
      assert |JoinLines(lines)| >= 1;
    }
  }

  /** The joined text ends with a newline unless there are no lines. */
  lemma JoinLinesEndsWithNewline(lines: seq<string>)
    requires lines != []
    ensures |JoinLines(lines)| > 0 && JoinLines(lines)[|JoinLines(lines)| - 1] == '\n'
  {
  }

  /** The reference splitter: the newline-terminated lines of `s` and the
      unterminated remainder after the last newline. */
  function SplitLines(s: string): (r: (seq<string>, string))
    decreases |s|
  {
    if s == [] then ([], "")
    else
      var (lines, rest) := SplitLines(s[..|s| - 1]);
      if s[|s| - 1] == '\n' then (lines + [rest], "") else (lines, rest + [s[|s| - 1]])
  }

  /** Splitting then joining gives back the text, and what the split produces
      holds no newline. */
  lemma {:induction false} SplitLinesJoin(s: string)
    ensures AllNoNewline(SplitLines(s).0) && NoNewline(SplitLines(s).1)
    ensures JoinLines(SplitLines(s).0) + SplitLines(s).1 == s
    decreases |s|
  {
    if s != [] {
      var init, c := s[..|s| - 1], s[|s| - 1];
      SplitLinesJoin(init);
      var lines, rest := SplitLines(init).0, SplitLines(init).1;
      assert s == init + [c];
      if c == '\n' {
        assert SplitLines(s) == (lines + [rest], "");
        assert (lines + [rest])[..|lines + [rest]| - 1] == lines;
        assert JoinLines(lines + [rest]) == JoinLines(lines) + rest + "\n";
        assert AllNoNewline(lines + [rest]) by {
          forall i | 0 <= i < |lines + [rest]|
            ensures NoNewline((lines + [rest])[i])
          {
            if i < |lines| {
              assert (lines + [rest])[i] == lines[i];
            }
          }
        }
      } else {
        assert SplitLines(s) == (lines, rest + [c]);
        assert JoinLines(lines) + (rest + [c]) == (JoinLines(lines) + rest) + [c];
      }
    }
  }

  /** Joining then splitting gives back the lines and the remainder: the
      round trip in the other direction. */
  lemma {:induction false} JoinLinesSplit(a: seq<string>, p: string)
    requires AllNoNewline(a) && NoNewline(p)
    ensures SplitLines(JoinLines(a) + p) == (a, p)
    decreases |JoinLines(a) + p|
  {
    var s := JoinLines(a) + p;
    if p != [] {
      var p' := p[..|p| - 1];
      assert s[..|s| - 1] == JoinLines(a) + p';
      assert s[|s| - 1] == p[|p| - 1];
      JoinLinesSplit(a, p');
      assert p' + [p[|p| - 1]] == p;
    } else if a != [] {
      var a', x := a[..|a| - 1], a[|a| - 1];
      assert s == JoinLines(a') + x + "\n";
      assert s[..|s| - 1] == JoinLines(a') + x;
      JoinLinesSplit(a', x);
      assert a' + [x] == a;
    }
  }

  /** Splitting at newlines is unique: two sequences of newline-free lines,
      each followed by a newline-free remainder, that spell the same text are
      the same. This is what makes the command tokens of a byte stream well
      defined. */
  lemma JoinLinesUnique(a: seq<string>, p: string, b: seq<string>, q: string)
    requires AllNoNewline(a) && NoNewline(p)
    requires AllNoNewline(b) && NoNewline(q)
    requires JoinLines(a) + p == JoinLines(b) + q
    ensures a == b && p == q
  {
    JoinLinesSplit(a, p);
    JoinLinesSplit(b, q);
  }
}

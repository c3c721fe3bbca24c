/** Line bookkeeping over the file text: `count_newlines` and the `str::lines`
    split that `main_ui` slices. Text is a sequence of characters; since the
    byte 0x0A occurs in UTF-8 only as the encoding of '\n', counting newline
    bytes and counting newline characters agree. */
module TextLines {

  /** The number of '\n' in `s` (`count_newlines`). */
  function CountNewlines(s: string): (n: nat)
    ensures n <= |s|
    ensures n == 0 <==> '\n' !in s
  {
    if s == [] then 0
    else (if s[0] == '\n' then 1 else 0) + CountNewlines(s[1..])
  }

  /** Counting is additive over concatenation. */
  lemma {:induction false} CountNewlinesAppend(a: string, b: string)
    ensures CountNewlines(a + b) == CountNewlines(a) + CountNewlines(b)
  {
    if a == [] {
      assert a + b == b;
    } else {
      assert (a + b)[0] == a[0];
      assert (a + b)[1..] == a[1..] + b;
      CountNewlinesAppend(a[1..], b);
    }
  }

  /** An independent definition: the count is the multiplicity of '\n' in `s`. */
  lemma {:induction false} CountNewlinesIsMultiplicity(s: string)
    ensures CountNewlines(s) == multiset(s)['\n']
  {
    if s != [] {
      assert s == [s[0]] + s[1..];
      assert multiset(s) == multiset([s[0]]) + multiset(s[1..]);
      CountNewlinesIsMultiplicity(s[1..]);
    }
  }

  /** Index of the first '\n' in `s`, or `|s|` when there is none. */
  function LineEnd(s: string): (i: nat)
    ensures i <= |s|
    ensures i < |s| ==> s[i] == '\n'
    ensures forall j :: 0 <= j < i ==> s[j] != '\n'
  {
    if s == [] || s[0] == '\n' then 0 else 1 + LineEnd(s[1..])
  }

  /** A line ended by "\r\n" loses its '\r' as well as its '\n'. */
  function StripCr(line: string): string
  {
    if |line| > 0 && line[|line| - 1] == '\r' then line[..|line| - 1] else line
  }

  /** The first line of `s` ends at position `i`: the newlines of `s` are
      that one and those of the rest. */
  lemma {:induction false} CountNewlinesAtLineEnd(s: string, i: nat)
    requires i == LineEnd(s) < |s|
    ensures CountNewlines(s) == 1 + CountNewlines(s[i + 1..])
  {
    assert s == s[..i] + ([s[i]] + s[i + 1..]);
    CountNewlinesAppend(s[..i], [s[i]] + s[i + 1..]);
    assert '\n' !in s[..i];
    assert ([s[i]] + s[i + 1..])[1..] == s[i + 1..];
  }

  /** `str::lines`: the pieces of `s` between line endings. A final line
      ending is optional and does not start an empty last line, so the number
      of lines is the number of newlines, plus one when the text ends in an
      unterminated line. No line holds a newline. */
  function Lines(s: string): (ls: seq<string>)
    ensures |ls| == if s == [] || s[|s| - 1] == '\n' then CountNewlines(s) else CountNewlines(s) + 1
    ensures forall k, j :: 0 <= k < |ls| && 0 <= j < |ls[k]| ==> ls[k][j] != '\n'
    decreases |s|
  {
    if s == [] then []
    else
      var i := LineEnd(s);
      if i == |s| then
        assert '\n' !in s;
        [s]
      else
        CountNewlinesAtLineEnd(s, i);
        var first, rest := StripCr(s[..i]), Lines(s[i + 1..]);
        assert forall j :: 0 <= j < |first| ==> first[j] != '\n';
        [first] + rest
  }

  /** Each line followed by a newline, one after the other. */
  function Unlines(ls: seq<string>): string
  {
    if ls == [] then "" else ls[0] + "\n" + Unlines(ls[1..])
  }

  /** Unterminated text is a single line, kept as it is. */
  lemma LinesOfUnterminated(s: string)
    requires s != [] && LineEnd(s) == |s|
    ensures Lines(s) == [s]
  {
  }

  /** Text with a newline: its first line, then the lines of the rest. */
  lemma LinesOfTerminated(s: string, i: nat)
    requires s != [] && i == LineEnd(s) < |s|
    ensures Lines(s) == [StripCr(s[..i])] + Lines(s[i + 1..])
  {
  }

  lemma UnlinesCons(line: string, ls: seq<string>)
    ensures Unlines([line] + ls) == line + "\n" + Unlines(ls)
  {
    assert ([line] + ls)[1..] == ls;
  }

  /** No carriage return anywhere in `s`. */
  predicate NoCr(s: string)
  {
    forall j :: 0 <= j < |s| ==> s[j] != '\r'
  }

  /** The lines are the text: for text without carriage returns, putting a
      newline after every line gives the text back, with one newline more
      when its last line was unterminated. */
  lemma {:induction false} LinesRejoin(s: string)
    requires NoCr(s)
    ensures Unlines(Lines(s)) == if s == [] || s[|s| - 1] == '\n' then s else s + "\n"
    decreases |s|
  {
    if s != [] {
      var i := LineEnd(s);
      if i == |s| {
        LinesOfUnterminated(s);
        UnlinesCons(s, []);
      } else {
        RejoinStep(s, i);
      }
    }
  }

  lemma SplitAt(s: string, i: nat)
    requires i < |s| && s[i] == '\n'
    ensures s == s[..i] + "\n" + s[i + 1..]
  {
    assert s == s[..i] + [s[i]] + s[i + 1..];
  }

  lemma {:induction false} RejoinStep(s: string, i: nat)
    requires NoCr(s) && s != [] && i == LineEnd(s) < |s|
    ensures Unlines(Lines(s)) == if s[|s| - 1] == '\n' then s else s + "\n"
    decreases |s|, 0
  {
    var first, rest := s[..i], s[i + 1..];
    assert NoCr(rest) by {
      forall j | 0 <= j < |rest| ensures rest[j] != '\r' {
        assert rest[j] == s[i + 1 + j];
      }
    }
    assert StripCr(first) == first;
    LinesOfTerminated(s, i);
    UnlinesCons(first, Lines(rest));
    LinesRejoin(rest);
    var u := Unlines(Lines(rest));
    assert Unlines(Lines(s)) == first + "\n" + u;
    SplitAt(s, i);
    if rest == [] {
      assert u == "";
    } else if rest[|rest| - 1] == '\n' {
      assert s[|s| - 1] == '\n';
    } else {
      assert s[|s| - 1] != '\n';
      assert first + "\n" + (rest + "\n") == s + "\n";
    }
  }
}

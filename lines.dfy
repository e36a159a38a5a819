/** The two string operations the emit pipeline of `createLogger` is built from:
    `Array.prototype.join("\n")` and `String.prototype.split("\n")`, both with the
    newline character as the separator. */
module Lines {

  /** The separator the emit pipeline joins its arguments with and splits them on. */
  const NewLine: char := '\n'

  /** Number of separators in `s`. */
  function Count(s: string): nat
  {
    if |s| == 0 then 0 else (if s[0] == NewLine then 1 else 0) + Count(s[1..])
  }

  /** `parts.join("\n")`: the parts with one separator between neighbours; no
      parts join to the empty string. The first part starts the result. */
  function Join(parts: seq<string>): (s: string)
    ensures |parts| > 0 ==> parts[0] <= s
  {
    if |parts| == 0 then ""
    else if |parts| == 1 then parts[0]
    else parts[0] + [NewLine] + Join(parts[1..])
  }

  /** Separator-free parts join with one separator fewer than there are parts. */
  lemma {:induction false} JoinCount(parts: seq<string>)
    requires |parts| > 0
    requires forall i :: 0 <= i < |parts| ==> NewLine !in parts[i]
    ensures Count(Join(parts)) == |parts| - 1
  {
    CountNone(parts[0]);
    if |parts| > 1 {
      JoinCount(parts[1..]);
      CountJoined(parts[0], Join(parts[1..]));
    }
  }

  /** One separator between two texts adds one to their separators. */
  lemma CountJoined(a: string, b: string)
    ensures Count(a + [NewLine] + b) == Count(a) + 1 + Count(b)
  {
    CountAppend(a + [NewLine], b);
    CountAppend(a, [NewLine]);
    assert [NewLine][1..] == [];
  }

  /** Separators in a concatenation are those of its halves. */
  lemma {:induction false} CountAppend(a: string, b: string)
    ensures Count(a + b) == Count(a) + Count(b)
  {
    if |a| == 0 {
      assert a + b == b;
    } else {
      assert (a + b)[0] == a[0];
      assert (a + b)[1..] == a[1..] + b;
      CountAppend(a[1..], b);
    }
  }

  /** A text counts no separator exactly when it holds none. */
  lemma {:induction false} CountNone(a: string)
    ensures Count(a) == 0 <==> NewLine !in a
  {
    if |a| > 0 {
      assert a == [a[0]] + a[1..];
      CountNone(a[1..]);
    }
  }

  /** `s.split("\n")`: the maximal separator-free pieces of `s`, in order. There is
      always one piece more than there are separators, so the empty string splits
      to one empty piece. */
  function Split(s: string): (lines: seq<string>)
    ensures |lines| == Count(s) + 1
    ensures forall i :: 0 <= i < |lines| ==> NewLine !in lines[i]
  {
    if |s| == 0 then [""]
    else
      var rest := Split(s[1..]);
      if s[0] == NewLine then [""] + rest
      else [[s[0]] + rest[0]] + rest[1..]
  }

  /** Prepending one non-separator character extends the first piece of a join. */
  lemma {:induction false} JoinConsHead(c: char, parts: seq<string>)
    requires |parts| >= 1
    ensures Join([[c] + parts[0]] + parts[1..]) == [c] + Join(parts)
  {
    var head, tail := [c] + parts[0], parts[1..];
    var q := [head] + tail;
    if |tail| == 0 {
      assert q == [head];
    } else {
      assert q[0] == head && q[1..] == tail;
      var j := Join(tail);
      calc {
        Join(q);
        head + [NewLine] + j;
        [c] + (parts[0] + [NewLine] + j);
        [c] + Join(parts);
      }
    }
  }

  /** Splitting and joining back gives the original text. */
  lemma {:induction false} JoinSplit(s: string)
    ensures Join(Split(s)) == s
  {
    if |s| > 0 {
      JoinSplit(s[1..]);
      var rest := Split(s[1..]);
      assert s == [s[0]] + s[1..];
      if s[0] == NewLine {
        assert ([""] + rest)[1..] == rest;
      } else {
        JoinConsHead(s[0], rest);
      }
    }
  }

  /** A separator-free string is a single piece. */
  lemma {:induction false} SplitNoNewLine(a: string)
    requires NewLine !in a
    ensures Split(a) == [a]
  {
    if |a| > 0 {
      assert a == [a[0]] + a[1..];
      SplitNoNewLine(a[1..]);
      assert a == [a[0]] + a[1..];
    }
  }

  /** The text before the first separator is the first piece. */
  lemma {:induction false} SplitAfter(a: string, b: string)
    requires NewLine !in a
    ensures Split(a + [NewLine] + b) == [a] + Split(b)
  {
    var s := a + [NewLine] + b;
    if |a| == 0 {
      assert s == [NewLine] + b;
      assert s[1..] == b;
    } else {
      assert NewLine !in a[1..] by { assert a == [a[0]] + a[1..]; }
      SplitAfter(a[1..], b);
      assert s[1..] == a[1..] + [NewLine] + b;
      assert s[0] == a[0];
      assert [[a[0]] + a[1..]] + Split(b) == [a] + Split(b) by { assert [a[0]] + a[1..] == a; }
    }
  }

  /** Joining separator-free parts and splitting again gives the parts back. */
  lemma {:induction false} SplitJoin(parts: seq<string>)
    requires |parts| >= 1
    requires forall i :: 0 <= i < |parts| ==> NewLine !in parts[i]
    ensures Split(Join(parts)) == parts
  {
    if |parts| == 1 {
      SplitNoNewLine(parts[0]);
    } else {
      SplitJoin(parts[1..]);
      SplitAfter(parts[0], Join(parts[1..]));
      assert parts == [parts[0]] + parts[1..];
    }
  }

  /** Joining `A + [a + "\n" + b] + B` is the same as joining `A + [a, b] + B`: a
      separator inside one part cannot be told from a boundary between two. */
  lemma {:induction false} JoinFlatten(before: seq<string>, a: string, b: string, after: seq<string>)
    ensures Join(before + [a + [NewLine] + b] + after) == Join(before + [a, b] + after)
  {
    var left := before + [a + [NewLine] + b] + after;
    var right := before + [a, b] + after;
    if |before| == 0 {
      assert left == [a + [NewLine] + b] + after;
      assert right == [a, b] + after;
      assert right[1..] == [b] + after;
      if |after| == 0 {
        assert Join(right[1..]) == b;
      } else {
        assert ([b] + after)[1..] == after;
        assert left[1..] == after;
      }
    } else {
      JoinFlatten(before[1..], a, b, after);
      assert left[1..] == before[1..] + [a + [NewLine] + b] + after;
      assert right[1..] == before[1..] + [a, b] + after;
    }
  }
}

// Splitting a string at a delimiter character, shared by the Arduino `split`
// helper of examples/fonte.cpp and Python's `str.split('\n')` in
// log_colorizer.py. `SegmentsFrom` is the reference definition: the pieces
// between consecutive delimiters, so a string with d delimiters has d + 1
// pieces and a trailing delimiter yields a final empty piece.
module Text {

  /** Arduino `String::indexOf(c, from)`: the first position at or after
      `from` holding `c`, or -1 when there is none (also when `from` is past
      the end). */
  function IndexOf(s: string, c: char, from: nat): (r: int)
    ensures r == -1 || (from <= r < |s| && s[r] == c)
    decreases |s| - from
  {
    if from >= |s| then -1
    else if s[from] == c then from
    else IndexOf(s, c, from + 1)
  }

  /** No occurrence of `c` is skipped: everything from `from` up to the
      result (or up to the end, when there is none) differs from `c`. */
  lemma {:induction false} IndexOfSkips(s: string, c: char, from: nat)
    ensures IndexOf(s, c, from) == -1 ==> forall i :: from <= i < |s| ==> s[i] != c
    ensures IndexOf(s, c, from) != -1 ==> forall i :: from <= i < IndexOf(s, c, from) ==> s[i] != c
    decreases |s| - from
  {
    if from < |s| && s[from] != c {
      IndexOfSkips(s, c, from + 1);
    }
  }

  /** The pieces of `s[start..]` between occurrences of `d`. */
  function SegmentsFrom(s: string, d: char, start: nat): (parts: seq<string>)
    requires start <= |s|
    ensures |parts| >= 1
    decreases |s| - start
  {
    var i := IndexOf(s, d, start);
    if i == -1 then [s[start..]]
    else [s[start..i]] + SegmentsFrom(s, d, i + 1)
  }

  function Segments(s: string, d: char): seq<string>
  {
    SegmentsFrom(s, d, 0)
  }

  /** Puts the delimiter back between consecutive pieces. */
  function Join(parts: seq<string>, d: char): string
    requires |parts| >= 1
  {
    if |parts| == 1 then parts[0] else parts[0] + [d] + Join(parts[1..], d)
  }

  /** Each piece followed by the delimiter, concatenated. */
  function Terminated(parts: seq<string>, d: char): string
  {
    if parts == [] then [] else parts[0] + [d] + Terminated(parts[1..], d)
  }

  function Count(s: string, c: char): nat
  {
    if s == [] then 0 else (if s[0] == c then 1 else 0) + Count(s[1..], c)
  }

  lemma {:induction false} JoinSegmentsFrom(s: string, d: char, start: nat)
    requires start <= |s|
    ensures Join(SegmentsFrom(s, d, start), d) == s[start..]
    decreases |s| - start
  {
    var i := IndexOf(s, d, start);
    if i != -1 {
      JoinSegmentsFrom(s, d, i + 1);
      assert s[start..] == s[start..i] + [d] + s[i + 1..];
    }
  }

  /** Joining the pieces back with the delimiter gives the original string. */
  lemma JoinSegments(s: string, d: char)
    ensures Join(Segments(s, d), d) == s
  {
    JoinSegmentsFrom(s, d, 0);
  }

  lemma {:induction false} SegmentsFromFree(s: string, d: char, start: nat)
    requires start <= |s|
    ensures forall k :: 0 <= k < |SegmentsFrom(s, d, start)| ==> d !in SegmentsFrom(s, d, start)[k]
    decreases |s| - start
  {
    var i := IndexOf(s, d, start);
    IndexOfSkips(s, d, start);
    if i != -1 {
      SegmentsFromFree(s, d, i + 1);
    }
  }

  /** No piece contains the delimiter. */
  lemma SegmentsFree(s: string, d: char)
    ensures forall k :: 0 <= k < |Segments(s, d)| ==> d !in Segments(s, d)[k]
  {
    SegmentsFromFree(s, d, 0);
  }

  lemma {:induction false} CountSplit(a: string, b: string, c: char)
    ensures Count(a + b, c) == Count(a, c) + Count(b, c)
  {
    if a != [] {
      assert (a + b)[1..] == a[1..] + b;
      CountSplit(a[1..], b, c);
    } else {
      assert a + b == b;
    }
  }

  lemma {:induction false} CountAbsent(s: string, c: char)
    requires c !in s
    ensures Count(s, c) == 0
  {
    if s != [] {
      CountAbsent(s[1..], c);
    }
  }

  lemma {:induction false} SegmentsFromCount(s: string, d: char, start: nat)
    requires start <= |s|
    ensures |SegmentsFrom(s, d, start)| == Count(s[start..], d) + 1
    decreases |s| - start
  {
    var i := IndexOf(s, d, start);
    IndexOfSkips(s, d, start);
    if i == -1 {
      CountAbsent(s[start..], d);
    } else {
      SegmentsFromCount(s, d, i + 1);
      assert s[start..] == s[start..i] + ([d] + s[i + 1..]);
      CountSplit(s[start..i], [d] + s[i + 1..], d);
      CountAbsent(s[start..i], d);
      assert ([d] + s[i + 1..])[1..] == s[i + 1..];
    }
  }

  /** A string with n delimiters splits into n + 1 pieces. */
  lemma SegmentsCount(s: string, d: char)
    ensures |Segments(s, d)| == Count(s, d) + 1
  {
    SegmentsFromCount(s, d, 0);
    assert s[0..] == s;
  }

  /** A joined sequence is its leading pieces, each terminated, followed by
      the last piece. */
  lemma {:induction false} JoinAsTerminated(parts: seq<string>, d: char)
    requires |parts| >= 1
    ensures Join(parts, d) == Terminated(parts[..|parts| - 1], d) + parts[|parts| - 1]
  {
    if |parts| > 1 {
      JoinAsTerminated(parts[1..], d);
      assert parts[1..][..|parts| - 2] == parts[..|parts| - 1][1..];
    }
  }

  lemma {:induction false} TerminatedAppend(parts: seq<string>, p: string, d: char)
    ensures Terminated(parts + [p], d) == Terminated(parts, d) + p + [d]
  {
    if parts != [] {
      assert (parts + [p])[1..] == parts[1..] + [p];
      TerminatedAppend(parts[1..], p, d);
    }
  }

  /** `IndexOf` finds the first occurrence at or after `from`. */
  lemma {:induction false} IndexOfFirst(s: string, c: char, from: nat, j: nat)
    requires from <= j < |s| && s[j] == c
    requires forall k :: from <= k < j ==> s[k] != c
    ensures IndexOf(s, c, from) == j
    decreases j - from
  {
    if from < j {
      IndexOfFirst(s, c, from + 1, j);
    }
  }

  /** Searching past a prefix `w` is searching the rest, shifted by `|w|`. */
  lemma {:induction false} IndexOfShift(w: string, y: string, c: char, i: nat)
    requires i <= |y|
    ensures IndexOf(w + y, c, |w| + i) == if IndexOf(y, c, i) == -1 then -1 else |w| + IndexOf(y, c, i)
    decreases |y| - i
  {
    if i < |y| {
      assert (w + y)[|w| + i] == y[i];
      if y[i] != c {
        IndexOfShift(w, y, c, i + 1);
      }
    }
  }

  lemma {:induction false} SegmentsFromShift(w: string, y: string, d: char, i: nat)
    requires i <= |y|
    ensures SegmentsFrom(w + y, d, |w| + i) == SegmentsFrom(y, d, i)
    decreases |y| - i
  {
    IndexOfShift(w, y, d, i);
    var j := IndexOf(y, d, i);
    if j == -1 {
      assert (w + y)[|w| + i..] == y[i..];
    } else {
      assert (w + y)[|w| + i..|w| + j] == y[i..j];
      SegmentsFromShift(w, y, d, j + 1);
    }
  }

  /** A delimiter-free piece followed by the delimiter splits off as the
      first piece. */
  lemma SegmentsAfterPiece(p: string, y: string, d: char)
    requires d !in p
    ensures Segments(p + [d] + y, d) == [p] + Segments(y, d)
  {
    var s := p + [d] + y;
    assert s[|p|] == d;
    forall k | 0 <= k < |p|
      ensures s[k] != d
    {
      assert s[k] == p[k];
    }
    IndexOfFirst(s, d, 0, |p|);
    assert s[0..|p|] == p;
    assert s == (p + [d]) + y;
    SegmentsFromShift(p + [d], y, d, 0);
  }

  /** Text made of terminated delimiter-free pieces splits into those
      pieces, followed by the pieces of whatever comes after. */
  lemma {:induction false} SegmentsAfterTerminated(parts: seq<string>, y: string, d: char)
    requires forall k :: 0 <= k < |parts| ==> d !in parts[k]
    ensures Segments(Terminated(parts, d) + y, d) == parts + Segments(y, d)
    decreases |parts|
  {
    if parts != [] {
      SegmentsAfterTerminated(parts[1..], y, d);
      assert Terminated(parts, d) + y == parts[0] + [d] + (Terminated(parts[1..], d) + y);
      SegmentsAfterPiece(parts[0], Terminated(parts[1..], d) + y, d);
      assert parts == [parts[0]] + parts[1..];
    } else {
      assert Terminated(parts, d) + y == y;
    }
  }

  /** The pieces of a string are its terminated leading pieces and its last
      piece. */
  lemma SegmentsAsTerminated(s: string, d: char)
    ensures var parts := Segments(s, d);
      s == Terminated(parts[..|parts| - 1], d) + parts[|parts| - 1]
  {
    JoinSegments(s, d);
    JoinAsTerminated(Segments(s, d), d);
  }

  /** The strings of `cs`, one after another. */
  function Concat(cs: seq<string>): string
  {
    if cs == [] then [] else cs[0] + Concat(cs[1..])
  }

  lemma {:induction false} ConcatAppend(cs: seq<string>, c: string)
    ensures Concat(cs + [c]) == Concat(cs) + c
  {
    if cs != [] {
      assert (cs + [c])[1..] == cs[1..] + [c];
      ConcatAppend(cs[1..], c);
    }
  }
}

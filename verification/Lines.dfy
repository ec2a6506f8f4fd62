// A text cut after every newline, over bytes or over characters.
module Lines {

  // The length of the first line, with its newline if it has one.
  function FirstLineEnd<T(==)>(s: seq<T>, newline: T): (n: nat)
    ensures n <= |s| && (n == 0 <==> s == [])
    ensures newline in s ==> 0 < n && s[n - 1] == newline && newline !in s[..n - 1]
    ensures newline !in s ==> n == |s|
  {
    if s == [] then 0
    else if s[0] == newline then 1
    else 1 + FirstLineEnd(s[1..], newline)
  }

  function Split<T(==)>(s: seq<T>, newline: T): seq<seq<T>> {
    if s == [] then []
    else
      var n := FirstLineEnd(s, newline);
      [s[..n]] + Split(s[n..], newline)
  }

  function Flatten<T>(parts: seq<seq<T>>): seq<T> {
    if parts == [] then [] else parts[0] + Flatten(parts[1..])
  }

  // A line that is ended by its only newline.
  predicate Closed<T(==)>(line: seq<T>, newline: T) {
    |line| > 0 && line[|line| - 1] == newline && newline !in line[..|line| - 1]
  }

  // Every line is closed, but the last one may also be an unended rest.
  predicate AreLines<T(==)>(lines: seq<seq<T>>, newline: T) {
    && (forall i :: 0 <= i < |lines| - 1 ==> Closed(lines[i], newline))
    && (|lines| > 0 ==>
          var last := lines[|lines| - 1];
          Closed(last, newline) || (last != [] && newline !in last))
  }

  lemma {:induction false} FlattenConcat<T>(a: seq<seq<T>>, b: seq<seq<T>>)
    ensures Flatten(a + b) == Flatten(a) + Flatten(b)
  {
    if a == [] {
      assert a + b == b;
    } else {
      assert (a + b)[1..] == a[1..] + b;
      FlattenConcat(a[1..], b);
    }
  }

  lemma FirstLineIsLine<T>(s: seq<T>, newline: T)
    requires s != []
    ensures var n := FirstLineEnd(s, newline);
            if newline in s then Closed(s[..n], newline) else n == |s| && s[..n] == s && s[n..] == []
  {
    var n := FirstLineEnd(s, newline);
    assert newline in s ==> s[..n][..n - 1] == s[..n - 1];
  }

  // Cutting is sound: the pieces are lines and make up the text.
  lemma {:induction false} SplitIsLines<T>(s: seq<T>, newline: T)
    ensures Flatten(Split(s, newline)) == s && AreLines(Split(s, newline), newline)
    ensures Split(s, newline) == [] <==> s == []
  {
    if s != [] {
      var n := FirstLineEnd(s, newline);
      SplitIsLines(s[n..], newline);
      assert s == s[..n] + s[n..];
      FirstLineIsLine(s, newline);
    }
  }

  lemma {:induction false} FirstLineEndsAt<T>(s: seq<T>, newline: T, i: nat)
    requires i < |s| && s[i] == newline && newline !in s[..i]
    ensures FirstLineEnd(s, newline) == i + 1
  {
    if i > 0 {
      assert s[0] == s[..i][0];
      assert s[1..][..i - 1] == s[..i][1..];
      FirstLineEndsAt(s[1..], newline, i - 1);
    }
  }

  lemma FirstOfLines<T>(line: seq<T>, rest: seq<T>, newline: T)
    requires Closed(line, newline) || (line != [] && newline !in line && rest == [])
    ensures FirstLineEnd(line + rest, newline) == |line|
  {
    if Closed(line, newline) {
      assert (line + rest)[..|line| - 1] == line[..|line| - 1];
      FirstLineEndsAt(line + rest, newline, |line| - 1);
    } else {
      assert line + rest == line;
    }
  }

  // There is one way to cut a text into lines.
  lemma {:induction false} SplitIsUnique<T>(lines: seq<seq<T>>, newline: T)
    requires AreLines(lines, newline)
    ensures Split(Flatten(lines), newline) == lines
  {
    if lines != [] {
      var line, rest := lines[0], Flatten(lines[1..]);
      FirstOfLines(line, rest, newline);
      assert (line + rest)[..|line|] == line && (line + rest)[|line|..] == rest;
      assert AreLines(lines[1..], newline);
      SplitIsUnique(lines[1..], newline);
      assert line + rest != [];
    }
  }
}

// Strings as the handlers use them: splitting paths, peeling names, ordering ids.
module Text {
  import opened Types

  function Split(s: string, sep: char): (parts: seq<string>)
    ensures |parts| >= 1
  {
    if s == "" then [""]
    else
      var rest := Split(s[1..], sep);
      if s[0] == sep then [""] + rest else [[s[0]] + rest[0]] + rest[1..]
  }

  function Join(parts: seq<string>, sep: char): string
    requires |parts| >= 1
  {
    if |parts| == 1 then parts[0] else parts[0] + [sep] + Join(parts[1..], sep)
  }

  // Joining what was split gives the text back, and no piece holds the separator.
  lemma {:induction false} JoinSplit(s: string, sep: char)
    ensures Join(Split(s, sep), sep) == s
    ensures forall part <- Split(s, sep) :: sep !in part
  {
    if s != "" {
      JoinSplit(s[1..], sep);
      var rest := Split(s[1..], sep);
      if s[0] == sep {
        assert ([""] + rest)[1..] == rest;
        assert Join([""] + rest, sep) == "" + [sep] + s[1..];
      } else {
        var parts := [[s[0]] + rest[0]] + rest[1..];
        assert parts[1..] == rest[1..];
        if |rest| > 1 {
          assert Join(parts, sep) == [s[0]] + (rest[0] + [sep] + Join(rest[1..], sep));
        }
        assert rest[0] in rest;
      }
    }
  }

  // A piece without the separator is one segment.
  lemma {:induction false} SplitPiece(a: string, sep: char)
    requires sep !in a
    ensures Split(a, sep) == [a]
  {
    if a != "" {
      SplitPiece(a[1..], sep);
      assert [a[0]] + a[1..] == a;
    }
  }

  // The first separator ends the first segment.
  lemma {:induction false} SplitHead(a: string, rest: string, sep: char)
    requires sep !in a
    ensures Split(a + [sep] + rest, sep) == [a] + Split(rest, sep)
  {
    var s := a + [sep] + rest;
    if a == "" {
      assert s[1..] == rest;
    } else {
      SplitHead(a[1..], rest, sep);
      assert s[1..] == a[1..] + [sep] + rest;
      assert [a[0]] + a[1..] == a;
    }
  }

  // Splitting what was joined gives the pieces back.
  lemma {:induction false} SplitJoin(parts: seq<string>, sep: char)
    requires |parts| >= 1
    requires forall part <- parts :: sep !in part
    ensures Split(Join(parts, sep), sep) == parts
  {
    if |parts| == 1 {
      SplitPiece(parts[0], sep);
    } else {
      SplitJoin(parts[1..], sep);
      SplitHead(parts[0], Join(parts[1..], sep), sep);
      assert [parts[0]] + parts[1..] == parts;
    }
  }

  predicate HasPrefix(s: string, p: string) { p <= s }

  function TrimPrefix(s: string, p: string): string { if HasPrefix(s, p) then s[|p|..] else s }

  // Cuts at the last occurrence of c.
  function CutLast(s: string, c: char): Option<(string, string)>
  {
    if s == "" then None
    else if s[|s| - 1] == c then Some((s[..|s| - 1], ""))
    else match CutLast(s[..|s| - 1], c)
      case None => None
      case Some((x, y)) => Some((x, y + [s[|s| - 1]]))
  }

  // Cuts at the first occurrence of c.
  function CutFirst(s: string, c: char): Option<(string, string)>
  {
    if s == "" then None
    else if s[0] == c then Some(("", s[1..]))
    else match CutFirst(s[1..], c)
      case None => None
      case Some((x, y)) => Some(([s[0]] + x, y))
  }

  lemma {:induction false} CutLastAt(x: string, y: string, c: char)
    requires c !in y
    ensures CutLast(x + [c] + y, c) == Some((x, y))
  {
    var s := x + [c] + y;
    if y == "" {
      assert s[..|s| - 1] == x;
    } else {
      var z := y[..|y| - 1];
      assert s[..|s| - 1] == x + [c] + z;
      CutLastAt(x, z, c);
      assert z + [y[|y| - 1]] == y;
    }
  }

  lemma {:induction false} CutFirstAt(x: string, y: string, c: char)
    requires c !in x
    ensures CutFirst(x + [c] + y, c) == Some((x, y))
  {
    var s := x + [c] + y;
    if x == "" {
      assert s[1..] == y;
    } else {
      assert s[1..] == x[1..] + [c] + y;
      CutFirstAt(x[1..], y, c);
      assert [x[0]] + x[1..] == x;
    }
  }

  // The order of Go strings.
  predicate Less(a: string, b: string)
  {
    b != "" && (a == "" || a[0] < b[0] || (a[0] == b[0] && Less(a[1..], b[1..])))
  }

  // b goes on where a ends, or the first character in which they differ is smaller in a.
  ghost predicate DifferAt(a: string, b: string, n: nat)
  {
    n <= |a| && n < |b| && a[..n] == b[..n] && (n == |a| || a[n] < b[n])
  }

  lemma {:induction false} LessIsLexical(a: string, b: string)
    ensures Less(a, b) <==> exists n: nat :: DifferAt(a, b, n)
  {
    if b != "" {
      if a == "" || a[0] < b[0] {
        assert DifferAt(a, b, 0);
      } else if a[0] == b[0] {
        LessIsLexical(a[1..], b[1..]);
        assert a == [a[0]] + a[1..] && b == [b[0]] + b[1..];
        if Less(a, b) {
          var n: nat :| DifferAt(a[1..], b[1..], n);
          assert a[..n + 1] == [a[0]] + a[1..][..n] && b[..n + 1] == [b[0]] + b[1..][..n];
          assert DifferAt(a, b, n + 1);
        }
        if n: nat :| DifferAt(a, b, n) {
          assert n > 0;
          assert a[1..][..n - 1] == a[..n][1..] && b[1..][..n - 1] == b[..n][1..];
          assert DifferAt(a[1..], b[1..], n - 1);
        }
      } else {
        forall n: nat ensures !DifferAt(a, b, n) { if n > 0 && n <= |a| && n <= |b| { assert a[..n][0] != b[..n][0]; } }
      }
    }
  }

  lemma {:induction false} LessTotal(a: string, b: string)
    ensures Less(a, b) || a == b || Less(b, a)
    ensures !(Less(a, b) && Less(b, a)) && !Less(a, a)
  {
    if a != "" {
      LessTotal(a[1..], a[1..]);
      if b != "" {
        LessTotal(a[1..], b[1..]);
        if a[0] == b[0] && a[1..] == b[1..] {
          assert a == [a[0]] + a[1..] == b;
        }
      }
    }
  }

  lemma {:induction false} LessTransitive(a: string, b: string, c: string)
    requires Less(a, b) && Less(b, c)
    ensures Less(a, c)
  {
    if a != "" && a[0] == b[0] == c[0] {
      LessTransitive(a[1..], b[1..], c[1..]);
    }
  }
}

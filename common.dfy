/** Values and text operations shared by the stub renderer and the attribute front end:
    an optional value, a fallible result, joining and splitting sequences, Rust's
    `str::lines`, `trim_matches` and `strip_prefix`, and the "collect results, stop at
    the first error" pattern that the front end uses for every list it parses. */
module Common {

  datatype Option<+T> = None | Some(value: T) {
    /** `unwrap_or`: the carried value, or `default` when there is none. */
    function GetOr(default: T): T {
      match this
      case Some(v) => v
      case None => default
    }
  }

  /** Outcome of a fallible step. A failure carries no payload: the error messages and
      source spans that the Rust code attaches are not modelled. */
  datatype Result<+T> = Ok(value: T) | Err

  // ---------------------------------------------------------------------------------
  // Joining and splitting

  /** `parts.join(sep)`: the parts in order, with `sep` between neighbours only. */
  function Join<T>(parts: seq<seq<T>>, sep: seq<T>): seq<T>
    decreases |parts|
  {
    if |parts| == 0 then []
    else if |parts| == 1 then parts[0]
    else parts[0] + sep + Join(parts[1..], sep)
  }

  /** Appending one more part adds exactly one separator, and only when something came
      before it: this is what a `needs_comma` flag implements. */
  lemma {:induction false} JoinSnoc<T>(parts: seq<seq<T>>, x: seq<T>, sep: seq<T>)
    ensures Join(parts + [x], sep) == if parts == [] then x else Join(parts, sep) + sep + x
    decreases |parts|
  {
    if |parts| == 0 {
      assert parts + [x] == [x];
    } else if |parts| == 1 {
      assert parts + [x] == [parts[0], x];
      assert [parts[0], x][1..] == [x];
    } else {
      assert (parts + [x])[1..] == parts[1..] + [x];
      JoinSnoc(parts[1..], x, sep);
    }
  }

  /** `sep` occurs in `s` starting at position `j`. */
  predicate OccursAt<T(==)>(s: seq<T>, sep: seq<T>, j: nat) {
    j + |sep| <= |s| && s[j..j + |sep|] == sep
  }

  /** First position at or after `i` at which `sep` occurs in `s`, or `|s|` when there
      is none. */
  function FindFrom<T(==)>(s: seq<T>, sep: seq<T>, i: nat): (k: nat)
    requires |sep| > 0 && i <= |s|
    ensures i <= k <= |s|
    ensures k == |s| || OccursAt(s, sep, k)
    ensures forall j: nat :: i <= j < k ==> !OccursAt(s, sep, j)
    decreases |s| - i
  {
    if i + |sep| > |s| then |s|
    else if OccursAt(s, sep, i) then i
    else FindFrom(s, sep, i + 1)
  }

  /** First position at which `sep` occurs in `s`, or `|s|` when it does not occur. */
  function Find<T(==)>(s: seq<T>, sep: seq<T>): (k: nat)
    requires |sep| > 0
    ensures k <= |s|
    ensures k == |s| || OccursAt(s, sep, k)
    ensures forall j: nat :: j < k ==> !OccursAt(s, sep, j)
  {
    FindFrom(s, sep, 0)
  }

  /** Splits `s` at every occurrence of `sep`, as Rust's slice and string `split` do:
      `n` occurrences give `n + 1` pieces, some of which may be empty. */
  function Split<T(==)>(s: seq<T>, sep: seq<T>): (pieces: seq<seq<T>>)
    requires |sep| > 0
    ensures |pieces| > 0
    decreases |s|
  {
    var k := Find(s, sep);
    if k == |s| then [s] else [s[..k]] + Split(s[k + |sep|..], sep)
  }

  /** Joining the pieces of a split restores the input, for every input. */
  lemma {:induction false} JoinSplit<T>(s: seq<T>, sep: seq<T>)
    requires |sep| > 0
    ensures Join(Split(s, sep), sep) == s
    decreases |s|
  {
    var k := Find(s, sep);
    if k < |s| {
      var rest := s[k + |sep|..];
      var pieces := Split(rest, sep);
      var parts := [s[..k]] + pieces;
      assert Split(s, sep) == parts;
      assert parts[1..] == pieces;
      assert Join(parts, sep) == s[..k] + sep + Join(pieces, sep);
      JoinSplit(rest, sep);
      assert s[k..k + |sep|] == sep;
      assert s == s[..k] + s[k..k + |sep|] + rest;
    }
  }

  /** Splitting a join restores the parts, provided no part contains the first element
      of the separator (so no separator can be found inside a part). */
  lemma {:induction false} SplitJoin<T>(parts: seq<seq<T>>, sep: seq<T>)
    requires |sep| > 0 && |parts| > 0
    requires forall i :: 0 <= i < |parts| ==> sep[0] !in parts[i]
    ensures Split(Join(parts, sep), sep) == parts
    decreases |parts|
  {
    var p := parts[0];
    if |parts| == 1 {
      NotFound(p, sep);
    } else {
      var rest := Join(parts[1..], sep);
      var s := p + sep + rest;
      FoundAfter(p, sep, rest);
      assert s[..|p|] == p;
      assert s[|p| + |sep|..] == rest;
      SplitJoin(parts[1..], sep);
    }
  }

  /** Splitting at a one-element separator leaves that element in no piece. */
  lemma {:induction false} SplitAvoids<T>(s: seq<T>, x: T)
    ensures forall i :: 0 <= i < |Split(s, [x])| ==> x !in Split(s, [x])[i]
    decreases |s|
  {
    var k := Find(s, [x]);
    forall j | 0 <= j < k ensures s[j] != x {
      assert !OccursAt(s, [x], j);
    }
    if k < |s| {
      SplitAvoids(s[k + 1..], x);
    }
  }

  lemma NotFound<T>(p: seq<T>, sep: seq<T>)
    requires |sep| > 0 && sep[0] !in p
    ensures Find(p, sep) == |p|
  {
  }

  lemma FoundAfter<T>(p: seq<T>, sep: seq<T>, rest: seq<T>)
    requires |sep| > 0 && sep[0] !in p
    ensures Find(p + sep + rest, sep) == |p|
  {
    var s := p + sep + rest;
    assert OccursAt(s, sep, |p|);
    forall j: nat | j < |p| ensures !OccursAt(s, sep, j) {
      assert s[j] == p[j];
      assert p[j] in p;
    }
  }

  // ---------------------------------------------------------------------------------
  // Lines of text

  /** Position of the first `c` in `s`, or `|s|`. */
  function IndexOf(s: string, c: char): (k: nat)
    ensures k <= |s|
    ensures k < |s| ==> s[k] == c
    ensures forall j :: 0 <= j < k ==> s[j] != c
  {
    if |s| == 0 then 0
    else if s[0] == c then 0
    else 1 + IndexOf(s[1..], c)
  }

  /** The carriage return of a `\r\n` line ending. */
  function StripCr(line: string): string {
    if |line| > 0 && line[|line| - 1] == '\r' then line[..|line| - 1] else line
  }

  /** Rust's `str::lines`: split at `\n` (dropping a `\r` just before it); a final line
      ending is optional, so a trailing `\n` does not produce an empty last line, and the
      empty string has no lines at all. */
  function Lines(s: string): (ls: seq<string>)
    ensures |ls| == 0 <==> |s| == 0
    decreases |s|
  {
    if |s| == 0 then []
    else
      var k := IndexOf(s, '\n');
      if k == |s| then [s] else [StripCr(s[..k])] + Lines(s[k + 1..])
  }

  /** A line that `Lines` returns unchanged and without splitting it. */
  predicate PlainLine(l: string) {
    '\n' !in l && (|l| == 0 || l[|l| - 1] != '\r')
  }

  /** Each line followed by a newline: what a sequence of `writeln!` calls produces. */
  function Unlines(ls: seq<string>): string {
    if |ls| == 0 then "" else ls[0] + "\n" + Unlines(ls[1..])
  }

  lemma {:induction false} UnlinesAppend(a: seq<string>, b: seq<string>)
    ensures Unlines(a + b) == Unlines(a) + Unlines(b)
    decreases |a|
  {
    if |a| > 0 {
      assert (a + b)[1..] == a[1..] + b;
      UnlinesAppend(a[1..], b);
    } else {
      assert a + b == b;
    }
  }

  /** Writing one more line appends that line and its line break. */
  lemma UnlinesSnoc(ls: seq<string>, l: string)
    ensures Unlines(ls + [l]) == Unlines(ls) + (l + "\n")
  {
    UnlinesAppend(ls, [l]);
    assert Unlines([l]) == l + "\n" + Unlines([]);
  }

  lemma LineBreakAt(l: string, rest: string)
    requires '\n' !in l
    ensures IndexOf(l + "\n" + rest, '\n') == |l|
  {
    var s := l + "\n" + rest;
    assert s[|l|] == '\n';
    forall j | 0 <= j < |l| ensures s[j] != '\n' {
      assert s[j] == l[j];
      assert l[j] in l;
    }
  }

  /** Text without a line break is a single line. */
  lemma SingleLine(s: string)
    requires |s| > 0 && '\n' !in s
    ensures Lines(s) == [s]
  {
  }

  /** Text without line breaks or carriage returns. */
  predicate OneLine(s: string) {
    '\n' !in s && '\r' !in s
  }

  lemma OneLineIsPlain(s: string)
    requires OneLine(s)
    ensures PlainLine(s)
  {
    if |s| > 0 {
      assert s[|s| - 1] in s;
    }
  }

  lemma OneLineConcat(a: string, b: string)
    requires OneLine(a) && OneLine(b)
    ensures OneLine(a + b)
  {
    assert forall c :: c in a + b ==> c in a || c in b;
  }

  /** A plain line after text without line breaks is a plain line. */
  lemma PlainAfter(a: string, b: string)
    requires OneLine(a) && PlainLine(b)
    ensures PlainLine(a + b)
  {
    assert forall c :: c in a + b ==> c in a || c in b;
    if |b| == 0 {
      assert a + b == a;
      OneLineIsPlain(a);
    } else {
      assert (a + b)[|a + b| - 1] == b[|b| - 1];
    }
  }

  /** A line ending after a plain line: the line is read back, then the rest. */
  lemma LinesAfterLine(l: string, rest: string)
    requires PlainLine(l)
    ensures Lines(l + "\n" + rest) == [l] + Lines(rest)
  {
    var s := l + "\n" + rest;
    LineBreakAt(l, rest);
    assert s[..|l|] == l;
    assert s[|l| + 1..] == rest;
  }

  /** With no carriage return in the text, every line `Lines` returns is plain. */
  lemma {:induction false} LinesArePlain(s: string)
    requires '\r' !in s
    ensures forall i :: 0 <= i < |Lines(s)| ==> PlainLine(Lines(s)[i]) && '\r' !in Lines(s)[i]
    decreases |s|
  {
    if |s| > 0 {
      var k := IndexOf(s, '\n');
      if k == |s| {
        assert Lines(s) == [s];
      } else {
        var l := s[..k];
        assert StripCr(l) == l by {
          if |l| > 0 { assert l[|l| - 1] in s; }
        }
        assert forall c :: c in l ==> c in s;
        assert '\n' !in l;
        assert forall c :: c in s[k + 1..] ==> c in s;
        LinesArePlain(s[k + 1..]);
        assert Lines(s) == [l] + Lines(s[k + 1..]);
      }
    }
  }

  /** Reading back text written line by line, followed by more text, gives the lines
      that were written and then the lines of the rest. */
  lemma {:induction false} LinesAfterUnlines(ls: seq<string>, rest: string)
    requires forall i :: 0 <= i < |ls| ==> PlainLine(ls[i])
    ensures Lines(Unlines(ls) + rest) == ls + Lines(rest)
    decreases |ls|
  {
    if |ls| > 0 {
      var tail := Unlines(ls[1..]) + rest;
      assert Unlines(ls) + rest == ls[0] + "\n" + tail by {
        assert Unlines(ls) == ls[0] + "\n" + Unlines(ls[1..]);
      }
      assert Lines(ls[0] + "\n" + tail) == [ls[0]] + Lines(tail) by {
        LinesAfterLine(ls[0], tail);
      }
      assert Lines(tail) == ls[1..] + Lines(rest) by {
        LinesAfterUnlines(ls[1..], rest);
      }
      assert [ls[0]] + (ls[1..] + Lines(rest)) == ls + Lines(rest);
    } else {
      assert Unlines(ls) + rest == rest;
    }
  }

  /** Reading back text written line by line gives the lines that were written. */
  lemma LinesOfUnlines(ls: seq<string>)
    requires forall i :: 0 <= i < |ls| ==> PlainLine(ls[i])
    ensures Lines(Unlines(ls)) == ls
  {
    LinesAfterUnlines(ls, "");
    assert Unlines(ls) + "" == Unlines(ls);
    assert ls + [] == ls;
  }

  /** Joining single-line parts with a single-line separator gives a single line. */
  lemma {:induction false} OneLineJoin(parts: seq<string>, sep: string)
    requires OneLine(sep)
    requires forall i :: 0 <= i < |parts| ==> OneLine(parts[i])
    ensures OneLine(Join(parts, sep))
    decreases |parts|
  {
    if |parts| > 1 {
      OneLineJoin(parts[1..], sep);
      OneLineConcat(parts[0], sep);
      OneLineConcat(parts[0] + sep, Join(parts[1..], sep));
    }
  }

  /** Lines joined with `"\n"` read back as the same lines, provided the last one is not
      empty (an empty last line would be an optional final line ending). */
  lemma {:induction false} LinesOfJoin(ls: seq<string>)
    requires forall i :: 0 <= i < |ls| ==> PlainLine(ls[i])
    requires |ls| > 0 ==> |ls[|ls| - 1]| > 0
    ensures Lines(Join(ls, "\n")) == ls
    decreases |ls|
  {
    if |ls| == 1 {
      var k := IndexOf(ls[0], '\n');
      assert k == |ls[0]|;
      assert Join(ls, "\n") == ls[0];
      assert Lines(ls[0]) == [ls[0]];
    } else if |ls| > 1 {
      var rest := Join(ls[1..], "\n");
      assert Join(ls, "\n") == ls[0] + "\n" + rest;
      assert Lines(ls[0] + "\n" + rest) == [ls[0]] + Lines(rest) by {
        LinesAfterLine(ls[0], rest);
      }
      assert Lines(rest) == ls[1..] by {
        LinesOfJoin(ls[1..]);
      }
      assert [ls[0]] + ls[1..] == ls;
    }
  }

  // ---------------------------------------------------------------------------------
  // Trimming

  /** `s.strip_prefix(p)`. */
  function StripPrefix(s: string, p: string): (r: Option<string>)
    ensures r.Some? <==> p <= s
    ensures r.Some? ==> p + r.value == s
  {
    if p <= s then Some(s[|p|..]) else None
  }

  function TrimStart(s: string, c: char): (r: string)
    ensures |r| <= |s| && r == s[|s| - |r|..]
    ensures |r| > 0 ==> r[0] != c
    ensures forall i :: 0 <= i < |s| - |r| ==> s[i] == c
  {
    if |s| > 0 && s[0] == c then TrimStart(s[1..], c) else s
  }

  function TrimEnd(s: string, c: char): (r: string)
    ensures |r| <= |s| && r == s[..|r|]
    ensures |r| > 0 ==> r[|r| - 1] != c
    ensures forall i :: |r| <= i < |s| ==> s[i] == c
  {
    if |s| > 0 && s[|s| - 1] == c then TrimEnd(s[..|s| - 1], c) else s
  }

  /** `s.trim_matches(c)`: every leading and every trailing `c` removed. */
  function TrimMatches(s: string, c: char): string {
    TrimEnd(TrimStart(s, c), c)
  }

  /** The text of a string literal between its quotes is what `trim_matches('"')`
      recovers, when that text neither starts nor ends with a quote itself. */
  lemma Unquote(x: string)
    requires |x| == 0 || (x[0] != '"' && x[|x| - 1] != '"')
    ensures TrimMatches("\"" + x + "\"", '"') == x
  {
    var q := "\"" + x + "\"";
    assert q[1..] == x + "\"";
    if |x| == 0 {
      assert TrimStart(q, '"') == "";
    } else {
      assert TrimStart(q, '"') == x + "\"";
      assert (x + "\"")[..|x|] == x;
    }
  }

  // ---------------------------------------------------------------------------------
  // Collecting fallible results

  /** The outputs of `f` over `xs`, concatenated in order, or `Err` when any call fails:
      the `for x in xs { out.append(&mut f(x)?) }` loop. */
  function FlatMap<A, B>(xs: seq<A>, f: A -> Result<seq<B>>): (r: Result<seq<B>>)
    ensures r.Err? <==> exists i :: 0 <= i < |xs| && f(xs[i]).Err?
    decreases |xs|
  {
    if |xs| == 0 then Ok([])
    else
      var init := FlatMap(xs[..|xs| - 1], f);
      var last := f(xs[|xs| - 1]);
      assert forall i :: 0 <= i < |xs| - 1 ==> xs[..|xs| - 1][i] == xs[i];
      if init.Err? || last.Err? then Err else Ok(init.value + last.value)
  }

  /** Three successful elements: their results, concatenated in order. */
  lemma FlatMapThree<A, B>(x: A, y: A, z: A, f: A -> Result<seq<B>>)
    requires f(x).Ok? && f(y).Ok? && f(z).Ok?
    ensures FlatMap([x, y, z], f) == Ok(f(x).value + f(y).value + f(z).value)
  {
    FlatMapOne(x, f);
    FlatMapOne(y, f);
    FlatMapOne(z, f);
    assert [x, y] == [x] + [y];
    FlatMapAppend([x], [y], f);
    assert [x, y, z] == [x, y] + [z];
    FlatMapAppend([x, y], [z], f);
  }

  /** Processing a single element is applying `f` to it. */
  lemma FlatMapOne<A, B>(x: A, f: A -> Result<seq<B>>)
    ensures FlatMap([x], f) == f(x)
  {
    assert [x][..0] == [];
    assert FlatMap([], f) == Ok([]);
    if f(x).Ok? {
      assert [] + f(x).value == f(x).value;
    }
  }

  /** Processing two lists one after the other is processing their concatenation. */
  lemma {:induction false} FlatMapAppend<A, B>(xs: seq<A>, ys: seq<A>, f: A -> Result<seq<B>>)
    ensures FlatMap(xs + ys, f) ==
      if FlatMap(xs, f).Err? || FlatMap(ys, f).Err? then Err
      else Ok(FlatMap(xs, f).value + FlatMap(ys, f).value)
    decreases |ys|
  {
    if |ys| == 0 {
      assert xs + ys == xs;
      assert FlatMap(ys, f) == Ok([]);
      if FlatMap(xs, f).Ok? {
        assert FlatMap(xs, f).value + [] == FlatMap(xs, f).value;
      }
    } else {
      var ys' := ys[..|ys| - 1];
      var last := f(ys[|ys| - 1]);
      assert (xs + ys)[..|xs + ys| - 1] == xs + ys';
      assert (xs + ys)[|xs + ys| - 1] == ys[|ys| - 1];
      FlatMapAppend(xs, ys', f);
      var whole := FlatMap(xs + ys' , f);
      assert FlatMap(xs + ys, f) == if whole.Err? || last.Err? then Err else Ok(whole.value + last.value);
      assert FlatMap(ys, f) == if FlatMap(ys', f).Err? || last.Err? then Err else Ok(FlatMap(ys', f).value + last.value);
      if FlatMap(xs, f).Ok? && FlatMap(ys', f).Ok? && last.Ok? {
        assert FlatMap(xs, f).value + FlatMap(ys', f).value + last.value
          == FlatMap(xs, f).value + (FlatMap(ys', f).value + last.value);
      }
    }
  }

  /** When every output of `f` satisfies `P`, so does every element of a successful
      `FlatMap`. */
  lemma {:induction false} FlatMapAll<A, B>(xs: seq<A>, f: A -> Result<seq<B>>, P: B -> bool)
    requires forall x, j :: f(x).Ok? && 0 <= j < |f(x).value| ==> P(f(x).value[j])
    ensures FlatMap(xs, f).Ok? ==>
      forall j :: 0 <= j < |FlatMap(xs, f).value| ==> P(FlatMap(xs, f).value[j])
    decreases |xs|
  {
    if |xs| > 0 {
      FlatMapAll(xs[..|xs| - 1], f, P);
    }
  }
}

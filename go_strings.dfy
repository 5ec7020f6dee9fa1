/** The two functions of Go's `strings` package that the labelling code
    relies on, with the facts about them that the label proofs need:
    `Split` on a one-character separator and `Join`. */
module GoStrings {

  /** `strings.Split(s, string(sep))`: the pieces of `s` between occurrences
      of `sep`, in order. The empty string gives one empty piece, and
      leading, trailing or adjacent separators give empty pieces, which are
      kept. */
  function Split(s: string, sep: char): (pieces: seq<string>)
    ensures |pieces| >= 1
    ensures forall i :: 0 <= i < |pieces| ==> sep !in pieces[i]
    decreases |s|
  {
    if s == [] then [""]
    else
      var rest := Split(s[1..], sep);
      if s[0] == sep then [""] + rest
      else
        assert sep !in [s[0]] + rest[0];
        [[s[0]] + rest[0]] + rest[1..]
  }

  /** The sum of the lengths of `parts`. */
  function TotalLength(parts: seq<string>): nat
  {
    if parts == [] then 0 else |parts[0]| + TotalLength(parts[1..])
  }

  /** `strings.Join(parts, sep)`: the parts, verbatim, with `sep` between
      each two neighbours. */
  function Join(parts: seq<string>, sep: string): (s: string)
    ensures parts == [] ==> s == ""
    ensures parts != [] ==> |s| == TotalLength(parts) + (|parts| - 1) * |sep|
    ensures parts != [] ==> parts[0] <= s
  {
    if |parts| == 0 then ""
    else if |parts| == 1 then parts[0]
    else parts[0] + sep + Join(parts[1..], sep)
  }

  /** Joining the pieces of a split with the separator gives the string back. */
  lemma {:induction false} JoinSplit(s: string, sep: char)
    ensures Join(Split(s, sep), [sep]) == s
    decreases |s|
  {
    if s != [] {
      var rest := Split(s[1..], sep);
      JoinSplit(s[1..], sep);
      if s[0] == sep {
        assert Split(s, sep) == [""] + rest;
        assert ([""] + rest)[1..] == rest;
        assert s == [sep] + s[1..];
      } else if |rest| == 1 {
        assert Split(s, sep) == [[s[0]] + rest[0]];
        assert s == [s[0]] + s[1..];
      } else {
        var pieces := Split(s, sep);
        assert pieces[0] == [s[0]] + rest[0];
        assert pieces[1..] == rest[1..];
        assert Join(rest, [sep]) == rest[0] + [sep] + Join(rest[1..], [sep]);
        assert s == [s[0]] + s[1..];
      }
    }
  }

  /** A prefix free of the separator becomes the start of the first piece. */
  lemma {:induction false} SplitPrefix(head: string, rest: string, sep: char)
    requires sep !in head
    ensures Split(head + rest, sep) == [head + Split(rest, sep)[0]] + Split(rest, sep)[1..]
    decreases |head|
  {
    if head == [] {
      var pieces := Split(rest, sep);
      assert head + rest == rest && head + pieces[0] == pieces[0];
      assert pieces == [pieces[0]] + pieces[1..];
    } else {
      assert (head + rest)[0] == head[0];
      assert (head + rest)[1..] == head[1..] + rest;
      SplitPrefix(head[1..], rest, sep);
      assert [head[0]] + (head[1..] + Split(rest, sep)[0]) == head + Split(rest, sep)[0];
    }
  }

  /** A string without the separator splits into itself alone. */
  lemma SplitNoSeparator(s: string, sep: char)
    requires sep !in s
    ensures Split(s, sep) == [s]
  {
    SplitPrefix(s, "", sep);
    assert s + "" == s;
  }

  /** Splitting at the first separator: the text before it is the first
      piece and the remaining pieces are those of the text after it. */
  lemma SplitAtSeparator(head: string, tail: string, sep: char)
    requires sep !in head
    ensures Split(head + [sep] + tail, sep) == [head] + Split(tail, sep)
  {
    SplitPrefix(head, [sep] + tail, sep);
    assert head + [sep] + tail == head + ([sep] + tail);
    assert ([sep] + tail)[1..] == tail;
    assert Split([sep] + tail, sep) == [""] + Split(tail, sep);
    assert head + "" == head;
  }

  /** Joining separator-free parts and splitting the result gives the parts
      back: `Join` neither escapes nor merges its parts. */
  lemma {:induction false} SplitJoin(parts: seq<string>, sep: char)
    requires |parts| >= 1
    requires forall i :: 0 <= i < |parts| ==> sep !in parts[i]
    ensures Split(Join(parts, [sep]), sep) == parts
  {
    if |parts| == 1 {
      SplitNoSeparator(parts[0], sep);
    } else {
      SplitJoin(parts[1..], sep);
      SplitAtSeparator(parts[0], Join(parts[1..], [sep]), sep);
      assert parts == [parts[0]] + parts[1..];
    }
  }

  /** A split yields one more piece than there are separators. */
  lemma {:induction false} SplitCount(s: string, sep: char)
    ensures |Split(s, sep)| == multiset(s)[sep] + 1
    decreases |s|
  {
    if s != [] {
      SplitCount(s[1..], sep);
      assert s == [s[0]] + s[1..];
      assert multiset(s) == multiset{s[0]} + multiset(s[1..]);
    }
  }

  /** Joining a concatenation puts one separator between the two joins. */
  lemma {:induction false} JoinConcat(a: seq<string>, b: seq<string>, sep: string)
    requires a != [] && b != []
    ensures Join(a + b, sep) == Join(a, sep) + sep + Join(b, sep)
    decreases |a|
  {
    if |a| == 1 {
      assert (a + b)[0] == a[0];
      assert (a + b)[1..] == b;
    } else {
      JoinConcat(a[1..], b, sep);
      assert (a + b)[0] == a[0];
      assert (a + b)[1..] == a[1..] + b;
    }
  }

  /** With a non-empty separator, a join is empty only for no parts or for
      one empty part. */
  lemma JoinIsEmpty(parts: seq<string>, sep: string)
    requires sep != ""
    ensures Join(parts, sep) == "" <==> parts == [] || parts == [""]
  {
    if |parts| >= 2 {
      assert |Join(parts, sep)| >= (|parts| - 1) * |sep| >= |sep|;
    }
  }

  /** No two consecutive characters of `s` are both `c`. */
  predicate NoDoubledSeparator(s: string, c: char)
  {
    forall i :: 0 <= i < |s| - 1 ==> !(s[i] == c && s[i + 1] == c)
  }

  /** Joining non-empty parts that do not contain `c` with `c` gives a
      non-empty string that neither starts nor ends with `c` and never holds
      `c` twice in a row. */
  lemma {:induction false} JoinNoDoubledSeparator(parts: seq<string>, c: char)
    requires parts != []
    requires forall i :: 0 <= i < |parts| ==> parts[i] != "" && c !in parts[i]
    ensures var s := Join(parts, [c]);
      s != "" && s[0] != c && s[|s| - 1] != c && NoDoubledSeparator(s, c)
  {
    var s := Join(parts, [c]);
    var p := parts[0];
    assert c !in p;
    if |parts| == 1 {
      assert s == p;
      forall i | 0 <= i < |s| ensures s[i] != c {
        assert s[i] in p;
      }
    } else {
      var t := Join(parts[1..], [c]);
      JoinNoDoubledSeparator(parts[1..], c);
      assert s == p + [c] + t;
      forall i | 0 <= i < |p| ensures s[i] != c {
        assert s[i] == p[i] && p[i] in p;
      }
      assert s[|p|] == c && s[|p| + 1] == t[0];
      forall i | |p| < i < |s| ensures s[i] == t[i - |p| - 1] {
      }
      assert s[|s| - 1] == t[|t| - 1];
      forall i | 0 <= i < |s| - 1 ensures !(s[i] == c && s[i + 1] == c) {
        if i > |p| {
          assert s[i] == t[i - |p| - 1] && s[i + 1] == t[i - |p|];
        }
      }
    }
  }
}

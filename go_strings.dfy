// The two splitting functions of Go's strings package that the token and webhook-URL parsers use:
// strings.Split with a one-character separator and strings.FieldsFunc with a one-character predicate.
module GoStrings {

  /** strings.Split(s, sep) for a one-character separator: the texts between separators, empty ones included. */
  function Split(s: string, sep: char): (r: seq<string>)
    ensures |r| >= 1
    ensures forall i :: 0 <= i < |r| ==> sep !in r[i]
    decreases |s|
  {
    if s == [] then [""]
    else
      var rest := Split(s[1..], sep);
      if s[0] == sep then [""] + rest
      else [[s[0]] + rest[0]] + rest[1..]
  }

  /** strings.Join(segments, sep) for a one-character separator. */
  function Join(segments: seq<string>, sep: char): string
    decreases |segments|
  {
    if segments == [] then ""
    else if |segments| == 1 then segments[0]
    else segments[0] + [sep] + Join(segments[1..], sep)
  }

  /** Joining the pieces of a split with the same separator gives back the text. */
  lemma {:induction false} JoinSplit(s: string, sep: char)
    ensures Join(Split(s, sep), sep) == s
    decreases |s|
  {
    if s != [] {
      var rest := Split(s[1..], sep);
      JoinSplit(s[1..], sep);
      if s[0] == sep {
        assert s == [sep] + s[1..];
      } else {
        assert s == [s[0]] + s[1..];
        if |rest| > 1 {
          assert rest == [rest[0]] + rest[1..];
          assert Join(rest, sep) == rest[0] + [sep] + Join(rest[1..], sep);
          assert Join(Split(s, sep), sep) == ([s[0]] + rest[0]) + [sep] + Join(rest[1..], sep);
        }
      }
    }
  }

  /** A text without the separator splits into itself alone. */
  lemma {:induction false} SplitWithoutSep(s: string, sep: char)
    requires sep !in s
    ensures Split(s, sep) == [s]
    decreases |s|
  {
    if s != [] {
      assert sep !in s[1..] by {
        forall i | 0 <= i < |s[1..]| ensures s[1..][i] != sep {
          assert s[1..][i] == s[i + 1];
        }
      }
      SplitWithoutSep(s[1..], sep);
      assert s == [s[0]] + s[1..];
    }
  }

  /** The first piece of a split is the text before the first separator, and the rest is the split of what follows it. */
  lemma {:induction false} SplitAtFirst(a: string, sep: char, b: string)
    requires sep !in a
    ensures Split(a + [sep] + b, sep) == [a] + Split(b, sep)
    decreases |a|
  {
    if a == [] {
      assert a + [sep] + b == [sep] + b;
      assert ([sep] + b)[1..] == b;
    } else {
      var s := a + [sep] + b;
      assert s[0] == a[0];
      assert s[1..] == a[1..] + [sep] + b;
      assert sep !in a[1..] by {
        forall i | 0 <= i < |a[1..]| ensures a[1..][i] != sep {
          assert a[1..][i] == a[i + 1];
        }
      }
      SplitAtFirst(a[1..], sep, b);
      assert a == [a[0]] + a[1..];
    }
  }

  /** Splitting a join of separator-free pieces gives the pieces back. */
  lemma {:induction false} SplitJoin(segments: seq<string>, sep: char)
    requires |segments| >= 1
    requires forall i :: 0 <= i < |segments| ==> sep !in segments[i]
    ensures Split(Join(segments, sep), sep) == segments
    decreases |segments|
  {
    if |segments| == 1 {
      SplitWithoutSep(segments[0], sep);
    } else {
      SplitJoin(segments[1..], sep);
      SplitAtFirst(segments[0], sep, Join(segments[1..], sep));
      assert segments == [segments[0]] + segments[1..];
    }
  }

  /** The non-empty pieces, in order. */
  function NonEmpty(pieces: seq<string>): (r: seq<string>)
    ensures forall i :: 0 <= i < |r| ==> r[i] != []
    ensures forall i :: 0 <= i < |r| ==> r[i] in pieces
    decreases |pieces|
  {
    if pieces == [] then []
    else if pieces[0] == [] then NonEmpty(pieces[1..])
    else [pieces[0]] + NonEmpty(pieces[1..])
  }

  /**
   * strings.FieldsFunc(s, func(r rune) bool { return r == sep }): the maximal runs of characters
   * other than sep, which are the non-empty pieces of the split on sep.
   */
  function Fields(s: string, sep: char): (r: seq<string>)
    ensures forall i :: 0 <= i < |r| ==> r[i] != [] && sep !in r[i]
  {
    NonEmpty(Split(s, sep))
  }

  /** Concatenating the fields gives the text with every separator removed. */
  lemma FieldsConcat(s: string, sep: char)
    ensures Concat(Fields(s, sep)) == Without(s, sep)
  {
    ConcatNonEmpty(Split(s, sep));
    SplitConcat(s, sep);
  }

  lemma {:induction false} SplitConcat(s: string, sep: char)
    ensures Concat(Split(s, sep)) == Without(s, sep)
    decreases |s|
  {
    if s != [] {
      SplitConcat(s[1..], sep);
      var rest := Split(s[1..], sep);
      if s[0] != sep {
        assert rest == [rest[0]] + rest[1..];
        ConcatCons(rest[0], rest[1..]);
        ConcatCons([s[0]] + rest[0], rest[1..]);
      } else {
        ConcatCons("", rest);
      }
    }
  }

  /** The text with every occurrence of c removed. */
  function Without(s: string, c: char): (r: string)
    ensures c !in r
    decreases |s|
  {
    if s == [] then "" else (if s[0] == c then "" else [s[0]]) + Without(s[1..], c)
  }

  function Concat(pieces: seq<string>): string
    decreases |pieces|
  {
    if pieces == [] then "" else pieces[0] + Concat(pieces[1..])
  }

  lemma ConcatCons(p: string, ps: seq<string>)
    ensures Concat([p] + ps) == p + Concat(ps)
  {
    assert ([p] + ps)[1..] == ps;
  }

  /** Dropping the empty pieces does not change the concatenation. */
  lemma {:induction false} ConcatNonEmpty(pieces: seq<string>)
    ensures Concat(NonEmpty(pieces)) == Concat(pieces)
    decreases |pieces|
  {
    if pieces != [] {
      ConcatNonEmpty(pieces[1..]);
      if pieces[0] != [] {
        ConcatCons(pieces[0], NonEmpty(pieces[1..]));
      }
    }
  }

  /** A path of separator-free, non-empty segments, each after one separator, has exactly those segments as fields. */
  lemma FieldsOfPath(segments: seq<string>, sep: char)
    requires |segments| >= 1
    requires forall i :: 0 <= i < |segments| ==> segments[i] != [] && sep !in segments[i]
    ensures Fields([sep] + Join(segments, sep), sep) == segments
  {
    SplitAtFirst("", sep, Join(segments, sep));
    assert "" + [sep] + Join(segments, sep) == [sep] + Join(segments, sep);
    SplitJoin(segments, sep);
    NonEmptyAll(segments);
  }

  lemma {:induction false} NonEmptyAll(pieces: seq<string>)
    requires forall i :: 0 <= i < |pieces| ==> pieces[i] != []
    ensures NonEmpty(pieces) == pieces
    decreases |pieces|
  {
    if pieces != [] {
      NonEmptyAll(pieces[1..]);
      assert pieces == [pieces[0]] + pieces[1..];
    }
  }
}

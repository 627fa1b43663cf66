/**
  Answer tags are plain strings such as "eat_pro" or "challenge_time": a
  category prefix, an underscore, and a variant. This module gives the two
  JavaScript string operations the quiz applies to them, `startsWith` and
  `split('_')`, and the field the quiz reads out of a challenge tag.
 */
module Tags {

  /** JavaScript's `s.startsWith(p)`. */
  predicate StartsWith(s: string, p: string) {
    p <= s
  }

  /** JavaScript's `s.split(sep)` for a one-character separator: the pieces
      between separators, in order, empty pieces included, and always at
      least one piece (`"".split('_')` is `[""]`). */
  function Split(s: string, sep: char): (parts: seq<string>)
    ensures |parts| >= 1
    ensures |parts| == 1 + CountOf(s, sep)
    decreases |s|
  {
    if |s| == 0 then [""]
    else if s[0] == sep then [""] + Split(s[1..], sep)
    else
      var rest := Split(s[1..], sep);
      [[s[0]] + rest[0]] + rest[1..]
  }

  /** Number of occurrences of `c` in `s`. */
  function CountOf(s: string, c: char): nat
    decreases |s|
  {
    if |s| == 0 then 0 else (if s[0] == c then 1 else 0) + CountOf(s[1..], c)
  }

  /** Glues pieces back together with the separator between them, the
      inverse of Split. */
  function Join(parts: seq<string>, sep: char): string
    requires |parts| >= 1
    decreases |parts|
  {
    if |parts| == 1 then parts[0] else parts[0] + [sep] + Join(parts[1..], sep)
  }

  /** Splitting loses nothing: joining the pieces gives back the string. */
  lemma {:induction false} SplitJoin(s: string, sep: char)
    ensures Join(Split(s, sep), sep) == s
    decreases |s|
  {
    if |s| > 0 {
      SplitJoin(s[1..], sep);
      var rest := Split(s[1..], sep);
      if s[0] == sep {
        assert Split(s, sep) == [""] + rest;
        assert ([""] + rest)[1..] == rest;
        assert s == [sep] + s[1..];
      } else {
        var parts := Split(s, sep);
        assert parts[1..] == rest[1..];
        assert parts[0] == [s[0]] + rest[0];
        if |rest| == 1 {
          assert rest[0] == s[1..];
        } else {
          assert Join(rest, sep) == rest[0] + [sep] + Join(rest[1..], sep);
          assert s == [s[0]] + s[1..];
        }
      }
    }
  }

  /** No piece of a split contains the separator. */
  lemma {:induction false} SplitPiecesFree(s: string, sep: char)
    ensures forall i :: 0 <= i < |Split(s, sep)| ==> sep !in Split(s, sep)[i]
    decreases |s|
  {
    if |s| > 0 {
      SplitPiecesFree(s[1..], sep);
      var rest := Split(s[1..], sep);
      var parts := Split(s, sep);
      forall i | 0 <= i < |parts|
        ensures sep !in parts[i]
      {
        if s[0] == sep {
          assert parts == [""] + rest;
          if i > 0 {
            assert parts[i] == rest[i - 1];
          }
        } else if i > 0 {
          assert parts[i] == rest[i];
        } else {
          assert parts[0] == [s[0]] + rest[0];
        }
      }
    }
  }

  /** When `s` is a separator-free `head`, a separator, then `tail`, the
      first piece is `head` and the remaining pieces are those of `tail`. */
  lemma {:induction false} SplitAfterHead(head: string, tail: string, sep: char)
    requires sep !in head
    ensures Split(head + [sep] + tail, sep) == [head] + Split(tail, sep)
    decreases |head|
  {
    var s := head + [sep] + tail;
    if |head| == 0 {
      assert s == [sep] + tail;
      assert s[1..] == tail;
    } else {
      assert s[1..] == head[1..] + [sep] + tail;
      SplitAfterHead(head[1..], tail, sep);
      assert [head[0]] + head[1..] == head;
    }
  }

  /** `s.split('_')[1]`. JavaScript gives `undefined` when `s` has no
      underscore; the quiz only ever reads it through `challengeFocus || …`,
      where `undefined` and `""` behave alike, so it is modelled as `""`. */
  function SecondField(s: string): string {
    var parts := Split(s, '_');
    if |parts| >= 2 then parts[1] else ""
  }

  /** The first piece of `s` is its longest prefix free of the separator. */
  lemma {:induction false} FirstPiece(s: string, sep: char)
    ensures Split(s, sep)[0] <= s
    ensures sep !in Split(s, sep)[0]
    ensures |Split(s, sep)[0]| == |s| || s[|Split(s, sep)[0]|] == sep
    decreases |s|
  {
    if |s| > 0 && s[0] != sep {
      FirstPiece(s[1..], sep);
      var rest := Split(s[1..], sep);
      assert Split(s, sep)[0] == [s[0]] + rest[0];
      assert s == [s[0]] + s[1..];
    }
  }

  /** For a tag `p + "_" + rest` whose prefix `p` has no underscore (such as
      "challenge"), the second field is what follows the first underscore up
      to the next one or the end of the tag. */
  lemma SecondFieldAfterPrefix(p: string, rest: string)
    requires '_' !in p
    ensures SecondField(p + "_" + rest) <= rest
    ensures '_' !in SecondField(p + "_" + rest)
    ensures var f := SecondField(p + "_" + rest);
            |f| == |rest| || rest[|f|] == '_'
  {
    SplitAfterHead(p, rest, '_');
    FirstPiece(rest, '_');
  }

  /** A tag `p + "_" + rest` with no further underscore: the second field is
      all of `rest`. */
  lemma SecondFieldWhole(p: string, rest: string)
    requires '_' !in p && '_' !in rest
    ensures SecondField(p + "_" + rest) == rest
  {
    SecondFieldAfterPrefix(p, rest);
    assert forall i :: 0 <= i < |rest| ==> rest[i] in rest;
  }
}

/** Python's `sep.join(parts)` and its partner, `s.split(c)` for a one-character
    separator, with the two round trips that relate them. */
module Text {

  /** `sep.join(parts)`: the parts in order, with `sep` between neighbours. */
  function Join(parts: seq<string>, sep: string): (r: string)
    ensures parts == [] ==> r == ""
    ensures parts != [] ==> parts[0] <= r
  {
    if parts == [] then ""
    else if |parts| == 1 then parts[0]
    else parts[0] + sep + Join(parts[1..], sep)
  }

  /** `s.split(c)`: the maximal runs of `s` between occurrences of `c`, always
      at least one (`"".split(c) == [""]`). */
  function Split(s: string, c: char): (parts: seq<string>)
    ensures parts != []
  {
    if s == [] then [""]
    else
      var rest := Split(s[1..], c);
      if s[0] == c then [""] + rest
      else [[s[0]] + rest[0]] + rest[1..]
  }

  lemma JoinCons(a: string, rest: seq<string>, sep: string)
    ensures Join([a] + rest, sep) == if rest == [] then a else a + sep + Join(rest, sep)
  {
    assert ([a] + rest)[1..] == rest;
  }

  /** Joining the pieces of a split gives back the original text, whatever it is. */
  lemma {:induction false} JoinSplit(s: string, c: char)
    ensures Join(Split(s, c), [c]) == s
  {
    if s != [] {
      var rest := Split(s[1..], c);
      JoinSplit(s[1..], c);
      if s[0] == c {
        JoinCons("", rest, [c]);
        assert s == [c] + s[1..];
      } else {
        JoinCons([s[0]] + rest[0], rest[1..], [c]);
        JoinCons(rest[0], rest[1..], [c]);
        assert rest == [rest[0]] + rest[1..];
        assert s == [s[0]] + s[1..];
      }
    }
  }

  /** Splitting text that starts with a separator-free prefix `a`: `a` is glued
      to the first piece of the rest. */
  lemma {:induction false} SplitPrefix(a: string, t: string, c: char)
    requires c !in a
    ensures Split(a + t, c) == [a + Split(t, c)[0]] + Split(t, c)[1..]
  {
    var st := Split(t, c);
    if a != [] {
      var s := a + t;
      assert s[0] == a[0] && s[1..] == a[1..] + t;
      var rest := Split(s[1..], c);
      assert Split(s, c) == [[s[0]] + rest[0]] + rest[1..];
      assert c !in a[1..] by {
        forall k | 0 <= k < |a[1..]| ensures a[1..][k] != c {
          assert a[1..][k] == a[k + 1];
        }
      }
      SplitPrefix(a[1..], t, c);
      assert rest == [a[1..] + st[0]] + st[1..];
      assert [a[0]] + (a[1..] + st[0]) == a + st[0] by {
        assert a == [a[0]] + a[1..];
      }
    } else {
      assert a + t == t && a + st[0] == st[0];
      assert st == [st[0]] + st[1..];
    }
  }

  /** Splitting a join gives back the parts, provided there is at least one part
      and no part contains the separator. */
  lemma {:induction false} SplitJoin(parts: seq<string>, c: char)
    requires parts != []
    requires forall i :: 0 <= i < |parts| ==> c !in parts[i]
    ensures Split(Join(parts, [c]), c) == parts
  {
    if |parts| == 1 {
      SplitPrefix(parts[0], "", c);
      assert parts[0] + "" == parts[0];
    } else {
      var tail := Join(parts[1..], [c]);
      SplitJoin(parts[1..], c);
      assert Join(parts, [c]) == parts[0] + ([c] + tail);
      SplitPrefix(parts[0], [c] + tail, c);
      assert ([c] + tail)[0] == c && ([c] + tail)[1..] == tail;
      assert Split([c] + tail, c) == [""] + parts[1..];
      assert parts[0] + "" == parts[0];
      assert parts == [parts[0]] + parts[1..];
    }
  }

  /** The pieces of each part's split, one part after another. */
  function SplitEach(parts: seq<string>, c: char): seq<string>
  {
    if parts == [] then [] else Split(parts[0], c) + SplitEach(parts[1..], c)
  }

  /** One step of `Split`: the first character either ends a piece or joins
      the first piece of the rest. */
  lemma SplitCons(ch: char, r: string, c: char)
    ensures Split([ch] + r, c) ==
      if ch == c then [""] + Split(r, c) else [[ch] + Split(r, c)[0]] + Split(r, c)[1..]
  {
    assert ([ch] + r)[0] == ch && ([ch] + r)[1..] == r;
  }

  /** `x + [c] + t` regrouped around its first character. */
  lemma ConsAroundSeparator(x: string, t: string, c: char)
    requires x != []
    ensures x + [c] + t == [x[0]] + (x[1..] + [c] + t)
  {
    assert x == [x[0]] + x[1..];
  }

  /** The first step of splitting `x + [c] + t`, for a non-empty `x`. */
  lemma SplitHead(x: string, t: string, c: char)
    requires x != []
    ensures Split(x + [c] + t, c) ==
      if x[0] == c then [""] + Split(x[1..] + [c] + t, c)
      else [[x[0]] + Split(x[1..] + [c] + t, c)[0]] + Split(x[1..] + [c] + t, c)[1..]
  {
    ConsAroundSeparator(x, t, c);
    SplitCons(x[0], x[1..] + [c] + t, c);
  }

  /** Gluing a prefix to the first of several pieces, some pieces following. */
  lemma GlueFirst(h: string, ps: seq<string>, qs: seq<string>)
    requires ps != []
    ensures [h + (ps + qs)[0]] + (ps + qs)[1..] == [h + ps[0]] + ps[1..] + qs
  {
    assert (ps + qs)[0] == ps[0];
    assert (ps + qs)[1..] == ps[1..] + qs;
  }

  /** The inductive step of `SplitAtSeparator`, from the text without its
      first character. */
  lemma SplitAtSeparatorStep(x: string, t: string, c: char)
    requires x != []
    requires Split(x[1..] + [c] + t, c) == Split(x[1..], c) + Split(t, c)
    ensures Split(x + [c] + t, c) == Split(x, c) + Split(t, c)
  {
    if x[0] == c {
      StepAtSeparator(x, t, c);
    } else {
      StepInsidePiece(x, t, c);
    }
  }

  /** The inductive step when the text starts with the separator. */
  lemma StepAtSeparator(x: string, t: string, c: char)
    requires x != [] && x[0] == c
    requires Split(x[1..] + [c] + t, c) == Split(x[1..], c) + Split(t, c)
    ensures Split(x + [c] + t, c) == Split(x, c) + Split(t, c)
  {
    SplitHead(x, t, c);
    assert Split(x, c) == [""] + Split(x[1..], c);
  }

  /** The inductive step when the text starts inside its first piece. */
  lemma StepInsidePiece(x: string, t: string, c: char)
    requires x != [] && x[0] != c
    requires Split(x[1..] + [c] + t, c) == Split(x[1..], c) + Split(t, c)
    ensures Split(x + [c] + t, c) == Split(x, c) + Split(t, c)
  {
    SplitHead(x, t, c);
    var ry := Split(x[1..], c);
    assert Split(x, c) == [[x[0]] + ry[0]] + ry[1..];
    GlueFirst([x[0]], ry, Split(t, c));
  }

  /** One occurrence of the separator cuts the split in two: the pieces of
      what precedes it, then the pieces of what follows it. */
  lemma {:induction false} SplitAtSeparator(x: string, t: string, c: char)
    ensures Split(x + [c] + t, c) == Split(x, c) + Split(t, c)
  {
    if x == [] {
      assert x + [c] + t == [c] + t;
      SplitCons(c, t, c);
    } else {
      SplitAtSeparator(x[1..], t, c);
      SplitAtSeparatorStep(x, t, c);
    }
  }

  /** Splitting a join of at least one part gives the pieces of every part, in
      order: a part holding the separator contributes one piece per line. */
  lemma {:induction false} SplitJoinEach(parts: seq<string>, c: char)
    requires parts != []
    ensures Split(Join(parts, [c]), c) == SplitEach(parts, c)
  {
    if |parts| == 1 {
      assert parts[1..] == [];
      assert Split(parts[0], c) + [] == Split(parts[0], c);
    } else {
      SplitJoinEach(parts[1..], c);
      assert Join(parts, [c]) == parts[0] + [c] + Join(parts[1..], [c]);
      SplitAtSeparator(parts[0], Join(parts[1..], [c]), c);
    }
  }
}

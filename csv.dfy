/** Comma-joined list fields of the wire requests: `String.join(",", list)`,
    the "set only when the list is non-null" pattern of the builders, and a
    reference splitter that undoes the join on non-empty lists whose elements
    contain no comma. */
module Csv {
  import opened Wrappers

  const Comma: char := ','

  /** `String.join(",", xs)`: the elements separated by single commas. The
      result starts with the first element and ends with the last. On
      non-empty lists whose elements contain no comma, `SplitJoin` below says
      that splitting recovers the list. */
  function Join(xs: seq<string>): (r: string)
    ensures |xs| > 0 ==> xs[0] <= r
    ensures |xs| > 0 ==> |xs[|xs| - 1]| <= |r| && r[|r| - |xs[|xs| - 1]|..] == xs[|xs| - 1]
  {
    if |xs| == 0 then ""
    else if |xs| == 1 then xs[0]
    else xs[0] + [Comma] + Join(xs[1..])
  }

  /** Splits on every comma, keeping empty pieces (like `s.split(",", -1)`).
      Every string, even the empty one, splits into at least one piece. */
  function Split(s: string): (r: seq<string>)
    ensures |r| >= 1
  {
    if s == [] then [""]
    else if s[0] == Comma then [""] + Split(s[1..])
    else var rest := Split(s[1..]); [[s[0]] + rest[0]] + rest[1..]
  }

  predicate NoComma(x: string)
  {
    Comma !in x
  }

  predicate NoCommas(xs: seq<string>)
  {
    forall i :: 0 <= i < |xs| ==> NoComma(xs[i])
  }

  /** The builders' `if (list != null) request.setX(String.join(",", list))`
      on a field that starts out null: absent stays absent, an empty list
      becomes the empty string. */
  function JoinIfPresent(xs: Option<seq<string>>): (r: Option<string>)
    ensures r.None? <==> xs.None?
    ensures xs == Some([]) ==> r == Some("")
  {
    match xs
    case None => None
    case Some(list) => Some(Join(list))
  }

  /** A comma-free string is a single piece. */
  lemma {:induction false} SplitNoComma(w: string)
    requires NoComma(w)
    ensures Split(w) == [w]
  {
    if w != [] {
      assert NoComma(w[1..]);
      SplitNoComma(w[1..]);
      assert [w[0]] + w[1..] == w;
    }
  }

  /** A comma-free first piece followed by a comma splits off cleanly. */
  lemma {:induction false} SplitPrepend(w: string, rest: string)
    requires NoComma(w)
    ensures Split(w + [Comma] + rest) == [w] + Split(rest)
  {
    var s := w + [Comma] + rest;
    if w == [] {
      assert s == [Comma] + rest;
      assert s[1..] == rest;
    } else {
      assert s[0] == w[0] && w[0] != Comma;
      assert s[1..] == w[1..] + [Comma] + rest;
      assert NoComma(w[1..]);
      SplitPrepend(w[1..], rest);
      assert [w[0]] + w[1..] == w;
    }
  }

  /** Splitting the join gives back any non-empty list of comma-free
      elements. */
  lemma {:induction false} SplitJoin(xs: seq<string>)
    requires |xs| > 0 && NoCommas(xs)
    ensures Split(Join(xs)) == xs
  {
    assert NoComma(xs[0]);
    if |xs| == 1 {
      SplitNoComma(xs[0]);
    } else {
      assert NoCommas(xs[1..]) by {
        forall i | 0 <= i < |xs[1..]| ensures NoComma(xs[1..][i]) {
          assert xs[1..][i] == xs[i + 1];
        }
      }
      SplitJoin(xs[1..]);
      SplitPrepend(xs[0], Join(xs[1..]));
      assert [xs[0]] + xs[1..] == xs;
    }
  }

  /** `Join` on a list of two or more elements puts a comma after the first. */
  lemma {:induction false} JoinCons(x: string, ys: seq<string>)
    requires |ys| > 0
    ensures Join([x] + ys) == x + [Comma] + Join(ys)
  {
    assert ([x] + ys)[1..] == ys;
  }

  /** Prefixing the first piece with a character prefixes the join with it. */
  lemma {:induction false} JoinExtendFirst(c: char, pieces: seq<string>)
    requires |pieces| > 0
    ensures Join([[c] + pieces[0]] + pieces[1..]) == [c] + Join(pieces)
  {
    if |pieces| == 1 {
      assert [[c] + pieces[0]] + pieces[1..] == [[c] + pieces[0]];
    } else {
      JoinCons([c] + pieces[0], pieces[1..]);
      assert [pieces[0]] + pieces[1..] == pieces;
      JoinCons(pieces[0], pieces[1..]);
    }
  }

  /** Joining the pieces of any string gives the string back: `Split` is a
      right inverse of `Join` on every input. */
  lemma {:induction false} JoinSplit(s: string)
    ensures Join(Split(s)) == s
  {
    if s != [] {
      JoinSplit(s[1..]);
      if s[0] == Comma {
        JoinCons("", Split(s[1..]));
      } else {
        JoinExtendFirst(s[0], Split(s[1..]));
      }
      assert [s[0]] + s[1..] == s;
    }
  }

  /** Why the round trip needs a non-empty list: the empty list and the list
      holding one empty name join to the same string. Only the absent/present
      distinction of `JoinIfPresent` survives the wire for an empty list. */
  lemma JoinEmptyAmbiguous()
    ensures Join([]) == Join([""])
    ensures Split(Join([])) == [""]
  {
  }

  /** How a wire field relates to the option list it was built from: present
      exactly when the list is, the empty string for the empty list, and the
      list itself back when it is non-empty and comma-free and the field is
      split on commas. */
  ghost predicate Carries(wire: Option<string>, list: Option<seq<string>>)
  {
    && (wire.None? <==> list.None?)
    && (list == Some([]) ==> wire == Some(""))
    && (list.Some? && |list.value| > 0 && NoCommas(list.value) ==>
          wire.Some? && Split(wire.value) == list.value)
  }

  /** Every field built by `JoinIfPresent` carries its list. */
  lemma JoinIfPresentCarries(xs: Option<seq<string>>)
    ensures Carries(JoinIfPresent(xs), xs)
  {
    if xs.Some? && |xs.value| > 0 && NoCommas(xs.value) {
      SplitJoin(xs.value);
    }
  }
}

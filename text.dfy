/**
  String building blocks shared by the writers: a separator-joined list, a
  concatenation of parts and a repeated token.
*/
module Text {

  /** The items with `sep` between each two neighbours and nowhere else. */
  function Join(items: seq<string>, sep: string): string
  {
    if |items| == 0 then ""
    else if |items| == 1 then items[0]
    else items[0] + sep + Join(items[1..], sep)
  }

  /** Appending one item adds exactly one separator, unless the list was empty. */
  lemma {:induction false} JoinSnoc(items: seq<string>, x: string, sep: string)
    ensures Join(items + [x], sep) == if |items| == 0 then x else Join(items, sep) + sep + x
  {
    if |items| > 1 {
      assert (items + [x])[1..] == items[1..] + [x];
      JoinSnoc(items[1..], x, sep);
    } else if |items| == 1 {
      assert (items + [x])[1..] == [x];
    }
  }

  /** JoinSnoc as a loop writes it: the separator, when due, then the item. */
  lemma JoinStep(items: seq<string>, x: string, sep: string)
    ensures Join(items + [x], sep) == Join(items, sep) + (if |items| == 0 then "" else sep) + x
  {
    JoinSnoc(items, x, sep);
    if |items| == 0 {
      assert Join(items, sep) + "" + x == x;
    }
  }

  /** JoinStep behind text written earlier. */
  lemma JoinStepAfter(prefix: string, items: seq<string>, x: string, sep: string)
    ensures prefix + Join(items + [x], sep) == prefix + Join(items, sep) + (if |items| == 0 then "" else sep) + x
  {
    JoinStep(items, x, sep);
    var joined := Join(items, sep);
    var separator := if |items| == 0 then "" else sep;
    assert prefix + (joined + separator + x) == prefix + joined + separator + x;
  }

  /** Joining two non-empty lists puts exactly one separator at the seam. */
  lemma {:induction false} JoinAppend(xs: seq<string>, ys: seq<string>, sep: string)
    ensures Join(xs + ys, sep) ==
      if |xs| == 0 then Join(ys, sep)
      else if |ys| == 0 then Join(xs, sep)
      else Join(xs, sep) + sep + Join(ys, sep)
    decreases |ys|
  {
    if |ys| == 0 {
      assert xs + ys == xs;
    } else if |xs| == 0 {
      assert xs + ys == ys;
    } else {
      var init := ys[..|ys| - 1];
      var last := ys[|ys| - 1];
      assert ys == init + [last];
      assert xs + ys == (xs + init) + [last];
      JoinSnoc(xs + init, last, sep);
      JoinSnoc(init, last, sep);
      JoinAppend(xs, init, sep);
    }
  }

  /** What a loop that writes `sep` before every item but the first has written
      after `items`, when its `any` flag started out as `lead`. */
  function FlaggedJoin(lead: bool, items: seq<string>, sep: string): string
  {
    (if lead && |items| > 0 then sep else "") + Join(items, sep)
  }

  /** One step of such a loop: the separator is written exactly when some item
      was written before, in this loop or by the caller. */
  lemma FlaggedJoinSnoc(lead: bool, items: seq<string>, x: string, sep: string)
    ensures FlaggedJoin(lead, items + [x], sep)
         == FlaggedJoin(lead, items, sep) + (if lead || |items| > 0 then sep else "") + x
  {
    JoinSnoc(items, x, sep);
  }

  /** The same step, for a list written as an outer part and an own part. */
  lemma FlaggedJoinAfter(lead: bool, outer: seq<string>, own: seq<string>, x: string, sep: string)
    ensures FlaggedJoin(lead, outer + (own + [x]), sep)
         == FlaggedJoin(lead, outer + own, sep) + (if lead || |outer| + |own| > 0 then sep else "") + x
  {
    assert outer + (own + [x]) == (outer + own) + [x];
    FlaggedJoinSnoc(lead, outer + own, x, sep);
  }

  /** The parts written one after the other. */
  function Concat(parts: seq<string>): string
  {
    if |parts| == 0 then "" else parts[0] + Concat(parts[1..])
  }

  lemma {:induction false} ConcatSnoc(parts: seq<string>, x: string)
    ensures Concat(parts + [x]) == Concat(parts) + x
  {
    if |parts| == 0 {
      assert parts + [x] == [x];
    } else {
      assert (parts + [x])[1..] == parts[1..] + [x];
      ConcatSnoc(parts[1..], x);
    }
  }

  lemma {:induction false} ConcatAppend(xs: seq<string>, ys: seq<string>)
    ensures Concat(xs + ys) == Concat(xs) + Concat(ys)
  {
    if |xs| == 0 {
      assert xs + ys == ys;
    } else {
      assert (xs + ys)[1..] == xs[1..] + ys;
      ConcatAppend(xs[1..], ys);
    }
  }

  /** `token` written `n` times. */
  function Repeat(token: string, n: nat): string
  {
    if n == 0 then "" else token + Repeat(token, n - 1)
  }

  lemma {:induction false} RepeatSnoc(token: string, n: nat)
    ensures Repeat(token, n + 1) == Repeat(token, n) + token
  {
    if n > 0 {
      RepeatSnoc(token, n - 1);
    }
  }
}

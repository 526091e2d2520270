/**
 Regular expressions of the kind that the image parser is written with: runs of characters of a
 class, single characters and assertions about the surroundings, one after the other, over the
 whole string.  A match is a list of pieces, one for each item.  When every run is followed by a
 character that cannot belong to it, a string matches in one way only, and taking each run as far
 as it goes finds it.
 */
module Patterns {
  import opened Prelude

  datatype Class = Alnum | HostStart | Plain | PlainSlash | PlainColon

  predicate Has(c: Class, ch: char) {
    || 'a' <= ch <= 'z' || 'A' <= ch <= 'Z' || '0' <= ch <= '9'
    || match c
       case Alnum => false
       case HostStart => ch == '_' || ch == '-'
       case Plain => ch in "._-"
       case PlainSlash => ch in "._-/"
       case PlainColon => ch in "._-:"
  }

  predicate All(c: Class, s: string) {
    forall k | 0 <= k < |s| :: Has(c, s[k])
  }

  /** Text of the class, and not empty. */
  predicate Some1(c: Class, s: string) {
    s != [] && All(c, s)
  }

  datatype Assertion = Start | End | Behind(before: char) | Ahead(next: char)

  datatype Group = NoGroup | Hostname | Username | Picture | Tag

  datatype Item = Run(group: Group, cls: Class) | Lit(group: Group, ch: char) | Look(any: seq<Assertion>)

  /** The end of the string, or the place before a newline that ends it. */
  predicate AtEnd(after: string) {
    after == "" || after == "\n"
  }

  predicate Holds(a: Assertion, before: string, after: string) {
    match a
    case Start => before == ""
    case End => AtEnd(after)
    case Behind(ch) => before != "" && before[|before| - 1] == ch
    case Ahead(ch) => after != "" && after[0] == ch
  }

  /** The item takes the piece, between what is before it and what is after it. */
  predicate Fits(item: Item, before: string, piece: string, after: string) {
    match item
    case Run(_, c) => Some1(c, piece)
    case Lit(_, ch) => piece == [ch]
    case Look(any) => piece == "" && exists k | 0 <= k < |any| :: Holds(any[k], before, after)
  }

  /** The items take these pieces from the front of a text. */
  predicate Takes(items: seq<Item>, before: string, text: string, pieces: seq<string>)
    decreases |items|
  {
    if items == [] then pieces == []
    else
      && pieces != [] && pieces[0] <= text
      && Fits(items[0], before, pieces[0], text[|pieces[0]|..])
      && Takes(items[1..], before + pieces[0], text[|pieces[0]|..], pieces[1..])
  }

  function Join(pieces: seq<string>): string {
    if pieces == [] then "" else pieces[0] + Join(pieces[1..])
  }

  lemma {:induction false} TakesFront(items: seq<Item>, before: string, text: string, pieces: seq<string>)
    requires Takes(items, before, text, pieces)
    ensures Join(pieces) <= text && |pieces| == |items|
    decreases |items|
  {
    if items != [] {
      TakesFront(items[1..], before + pieces[0], text[|pieces[0]|..], pieces[1..]);
    }
  }

  /** A match of the whole string. */
  ghost predicate Matches(items: seq<Item>, s: string, pieces: seq<string>) {
    Takes(items, "", s, pieces) && Join(pieces) <= s && AtEnd(s[|Join(pieces)|..])
  }

  /** What a group has captured. */
  function Captured(items: seq<Item>, pieces: seq<string>, group: Group): string
    requires |items| == |pieces|
  {
    if items == [] then ""
    else
      (if !items[0].Look? && items[0].group == group then pieces[0] else "")
      + Captured(items[1..], pieces[1..], group)
  }

  // ------------------------------------------------------------ in one way only

  /** What comes next cannot continue a run of the class. */
  predicate Stops(items: seq<Item>, c: Class)
    decreases |items|
  {
    if items == [] then true
    else
      match items[0]
      case Run(_, _) => false
      case Lit(_, ch) => !Has(c, ch)
      case Look(_) => Stops(items[1..], c)
  }

  predicate Deterministic(items: seq<Item>) {
    items == [] || ((items[0].Run? ==> Stops(items[1..], items[0].cls)) && Deterministic(items[1..]))
  }

  /** The longest front of the text that belongs to the class. */
  function Span(c: Class, text: string): (run: string)
    ensures run <= text && All(c, run)
    ensures |run| < |text| ==> !Has(c, text[|run|])
  {
    if text == "" || !Has(c, text[0]) then "" else [text[0]] + Span(c, text[1..])
  }

  /** Matching without ever going back. */
  function Greedy(items: seq<Item>, before: string, text: string): (r: Option<seq<string>>)
    ensures r.Some? ==> |r.value| == |items|
    decreases |items|
  {
    if items == [] then if AtEnd(text) then Some([]) else None
    else
      var piece :=
        match items[0]
        case Run(_, c) => Span(c, text)
        case Lit(_, ch) => if text != "" then text[..1] else ""
        case Look(_) => "";
      if !Fits(items[0], before, piece, text[|piece|..]) then None
      else
        match Greedy(items[1..], before + piece, text[|piece|..])
        case None => None
        case Some(pieces) => Some([piece] + pieces)
  }

  lemma {:induction false} SpanIs(c: Class, a: string, x: string)
    requires All(c, a) && (x == "" || !Has(c, x[0]))
    ensures Span(c, a + x) == a
  {
    hide Has;
    if a == "" {
      assert a + x == x;
    } else {
      assert (a + x)[0] == a[0] && (a + x)[1..] == a[1..] + x;
      SpanIs(c, a[1..], x);
    }
  }

  /** A piece of a class that ends where the class cannot go on is determined. */
  lemma SpanUnique(c: Class, a: string, x: string, b: string, y: string)
    requires All(c, a) && All(c, b) && a + x == b + y
    requires x == "" || !Has(c, x[0])
    requires y == "" || !Has(c, y[0])
    ensures a == b && x == y
  {
    hide Has, All, Span;
    SpanIs(c, a, x);
    SpanIs(c, b, y);
    assert (a + x)[|a|..] == x && (b + y)[|b|..] == y;
  }

  lemma {:induction false} StopsThere(items: seq<Item>, c: Class, before: string, text: string, pieces: seq<string>)
    requires Stops(items, c) && Takes(items, before, text, pieces) && Join(pieces) <= text
      && AtEnd(text[|Join(pieces)|..])
    ensures text == "" || !Has(c, text[0])
    decreases |items|
  {
    if items != [] && items[0].Look? {
      StopsThere(items[1..], c, before + pieces[0], text, pieces[1..]);
    }
  }

  lemma FirstPiece(items: seq<Item>, before: string, text: string, pieces: seq<string>)
    requires items != [] && Deterministic(items) && Takes(items, before, text, pieces)
    requires Join(pieces) <= text && AtEnd(text[|Join(pieces)|..])
    ensures var rest := text[|pieces[0]|..]; Join(pieces[1..]) <= rest && AtEnd(rest[|Join(pieces[1..])|..])
    ensures pieces[0] ==
      match items[0]
      case Run(_, c) => Span(c, text)
      case Lit(_, ch) => if text != "" then text[..1] else ""
      case Look(_) => ""
  {
    hide Has, Deterministic, AtEnd;
    var rest := text[|pieces[0]|..];
    assert text[|Join(pieces)|..] == rest[|Join(pieces[1..])|..];
    TakesFront(items[1..], before + pieces[0], rest, pieces[1..]);
    if items[0].Run? {
      RunStops(items);
      StopsThere(items[1..], items[0].cls, before + pieces[0], rest, pieces[1..]);
      SpanIs(items[0].cls, pieces[0], rest);
      assert pieces[0] + rest == text;
    }
  }

  lemma RunStops(items: seq<Item>)
    requires items != [] && Deterministic(items) && items[0].Run?
    ensures Stops(items[1..], items[0].cls)
  {
  }

  /** The greedy matcher finds every match, so that there is one at most. */
  lemma {:induction false} GreedyFinds(items: seq<Item>, before: string, text: string, pieces: seq<string>)
    requires Deterministic(items) && Takes(items, before, text, pieces)
    requires Join(pieces) <= text && AtEnd(text[|Join(pieces)|..])
    ensures Greedy(items, before, text) == Some(pieces)
    decreases |items|
  {
    hide Has, Span, Fits, Stops;
    if items != [] {
      FirstPiece(items, before, text, pieces);
      GreedyFinds(items[1..], before + pieces[0], text[|pieces[0]|..], pieces[1..]);
      assert pieces == [pieces[0]] + pieces[1..];
    }
  }

  lemma {:induction false} GreedyTakes(items: seq<Item>, before: string, text: string)
    requires Greedy(items, before, text).Some?
    ensures var pieces := Greedy(items, before, text).value;
      Takes(items, before, text, pieces) && Join(pieces) <= text && AtEnd(text[|Join(pieces)|..])
    decreases |items|
  {
    if items != [] {
      var pieces := Greedy(items, before, text).value;
      var rest := text[|pieces[0]|..];
      GreedyTakes(items[1..], before + pieces[0], rest);
      assert pieces[1..] == Greedy(items[1..], before + pieces[0], rest).value;
      assert text[|Join(pieces)|..] == rest[|Join(pieces[1..])|..];
    }
  }

  /** For a deterministic pattern the greedy matcher decides, and finds the only match. */
  lemma GreedyIff(items: seq<Item>, s: string)
    requires Deterministic(items)
    ensures forall pieces :: Matches(items, s, pieces) <==> Greedy(items, "", s) == Some(pieces)
  {
    forall pieces
      ensures Matches(items, s, pieces) <==> Greedy(items, "", s) == Some(pieces)
    {
      if Matches(items, s, pieces) {
        GreedyFinds(items, "", s, pieces);
      }
      if Greedy(items, "", s) == Some(pieces) {
        GreedyTakes(items, "", s);
      }
    }
  }

  // -------------------------------------------------------------- composition

  lemma {:induction false} JoinThen(a: seq<string>, b: seq<string>)
    ensures Join(a + b) == Join(a) + Join(b)
  {
    if a == [] {
      assert a + b == b;
    } else {
      assert (a + b)[1..] == a[1..] + b;
      JoinThen(a[1..], b);
    }
  }

  lemma {:induction false} TakesThen(a: seq<Item>, b: seq<Item>, before: string, text: string, p: seq<string>,
                                     q: seq<string>)
    requires Takes(a, before, text, p) && Join(p) <= text && Takes(b, before + Join(p), text[|Join(p)|..], q)
    ensures Takes(a + b, before, text, p + q)
    decreases |a|
  {
    hide Fits, AtEnd;
    if a == [] {
      assert a + b == b && p + q == q && before + Join(p) == before;
    } else {
      var rest := text[|p[0]|..];
      TakesFront(a[1..], before + p[0], rest, p[1..]);
      assert before + Join(p) == before + p[0] + Join(p[1..]);
      assert text[|Join(p)|..] == rest[|Join(p[1..])|..];
      TakesThen(a[1..], b, before + p[0], rest, p[1..], q);
      assert (a + b)[1..] == a[1..] + b && (p + q)[1..] == p[1..] + q;
    }
  }

  lemma {:induction false} TakesSplits(a: seq<Item>, b: seq<Item>, before: string, text: string, pieces: seq<string>)
    requires Takes(a + b, before, text, pieces)
    ensures |pieces| == |a| + |b|
    ensures var p, q := pieces[..|a|], pieces[|a|..];
      Takes(a, before, text, p) && Join(p) <= text && Takes(b, before + Join(p), text[|Join(p)|..], q)
    decreases |a|
  {
    TakesFront(a + b, before, text, pieces);
    if a == [] {
      assert a + b == b && before + Join([]) == before;
      assert pieces[0..] == pieces;
    } else {
      var p := pieces[..|a|];
      var rest := text[|p[0]|..];
      assert (a + b)[1..] == a[1..] + b;
      TakesSplits(a[1..], b, before + p[0], rest, pieces[1..]);
      assert p[1..] == pieces[1..][..|a| - 1] && pieces[1..][|a| - 1..] == pieces[|a|..];
      assert before + Join(p) == before + p[0] + Join(p[1..]);
      assert text[|Join(p)|..] == rest[|Join(p[1..])|..];
    }
  }

  lemma {:induction false} CapturedThen(a: seq<Item>, b: seq<Item>, p: seq<string>, q: seq<string>, group: Group)
    requires |a| == |p| && |b| == |q|
    ensures Captured(a + b, p + q, group) == Captured(a, p, group) + Captured(b, q, group)
  {
    if a == [] {
      assert a + b == b && p + q == q;
    } else {
      assert (a + b)[1..] == a[1..] + b && (p + q)[1..] == p[1..] + q;
      CapturedThen(a[1..], b, p[1..], q, group);
    }
  }
}

/** What follows from the nine patterns: one interpretation at most, and a normal form for each image. */
module ImageForms {
  import opened Prelude
  import opened Patterns
  import opened Images

  // ------------------------------------------------- from the parts to a match

  lemma FieldTakes(x: seq<Assertion>, g: Group, c: Class, y: seq<Assertion>, before: string, t: string, after: string,
                   i: nat, j: nat)
    requires Some1(c, t) && i < |x| && j < |y| && Holds(x[i], before, t + after) && Holds(y[j], before + t, after)
    ensures Takes([Look(x), Run(g, c), Look(y)], before, t + after, ["", t, ""]) && Join(["", t, ""]) == t
  {
    hide Has, All, Holds;
    var items, pieces := [Look(x), Run(g, c), Look(y)], ["", t, ""];
    assert items[1..] == [Run(g, c), Look(y)] && items[1..][1..] == [Look(y)] && pieces[1..] == [t, ""]
      && pieces[1..][1..] == [""];
    assert (t + after)[0..] == t + after && before + "" == before && (t + after)[|t|..] == after && after[0..] == after;
    assert Join([""]) == "" && Join([t, ""]) == t;
    assert Takes([Look(y)], before + t, after, [""]);
    assert Takes([Run(g, c), Look(y)], before, t + after, [t, ""]);
  }

  lemma LitTakes(ch: char, before: string, after: string)
    ensures Takes([Lit(NoGroup, ch)], before, [ch] + after, [[ch]]) && Join([[ch]]) == [ch]
  {
    assert [[ch]][1..] == [] && ([ch] + after)[1..] == after;
  }

  /** The pieces of two parts, one after the other. */
  lemma Both(a: seq<Item>, b: seq<Item>, before: string, s: string, t: string, p: seq<string>, q: seq<string>)
    requires Takes(a, before, s + t, p) && Join(p) == s && Takes(b, before + s, t, q)
    ensures Takes(a + b, before, s + t, p + q) && Join(p + q) == s + Join(q)
  {
    hide Takes;
    assert (s + t)[|s|..] == t;
    TakesThen(a, b, before, s + t, p, q);
    JoinThen(p, q);
  }

  lemma LookTakes(x: seq<Assertion>, before: string, after: string, i: nat)
    requires i < |x| && Holds(x[i], before, after)
    ensures Takes([Look(x)], before, after, [""]) && Join([""]) == ""
  {
    hide Holds;
    assert after[0..] == after && before + "" == before && [""][1..] == [];
  }

  lemma RunTakes(g: Group, c: Class, before: string, t: string, after: string)
    requires Some1(c, t)
    ensures Takes([Run(g, c)], before, t + after, [t]) && Join([t]) == t
  {
    hide Has, All;
    assert (t + after)[|t|..] == after && [t][1..] == [];
  }

  lemma DotTakes(before: string, after: string)
    ensures Takes([Lit(Hostname, '.')], before, "." + after, ["."]) && Join(["."]) == "."
  {
    assert ["."][1..] == [] && ("." + after)[1..] == after;
  }

  const BEHIND_DOT: seq<Item> := [Lit(Hostname, '.')] + ([Run(Hostname, PlainColon)] + [Look([Ahead('/')])])

  lemma BehindDotTakes(a: string, b: string, after: string)
    requires Some1(PlainColon, b) && after != "" && after[0] == '/'
    ensures Takes(BEHIND_DOT, a, "." + (b + after), ["."] + ([b] + [""])) && Join(["."] + ([b] + [""])) == "." + b
  {
    hide Has, All, Takes, Join;
    LookTakes([Ahead('/')], a + "." + b, after, 0);
    RunTakes(Hostname, PlainColon, a + ".", b, after);
    Both([Run(Hostname, PlainColon)], [Look([Ahead('/')])], a + ".", b, after, [b], [""]);
    DotTakes(a, b + after);
    Both([Lit(Hostname, '.')], [Run(Hostname, PlainColon)] + [Look([Ahead('/')])], a, ".", b + after, ["."],
         [b] + [""]);
  }

  lemma HostPartsTake(a: string, b: string, after: string)
    requires Some1(HostStart, a) && Some1(PlainColon, b) && after != "" && after[0] == '/'
    ensures Takes(HOSTNAME, "", a + ("." + (b + after)), [""] + ([a] + (["."] + ([b] + [""]))))
    ensures Join([""] + ([a] + (["."] + ([b] + [""])))) == a + ("." + b)
  {
    hide Has, All, Takes, Join;
    var s, q := a + ("." + (b + after)), ["."] + ([b] + [""]);
    BehindDotTakes(a, b, after);
    RunTakes(Hostname, HostStart, "", a, "." + (b + after));
    assert "" + a == a && "" + s == s && "" + "" == "";
    Both([Run(Hostname, HostStart)], BEHIND_DOT, "", a, "." + (b + after), [a], q);
    LookTakes([Start], "", s, 0);
    Both([Look([Start])], [Run(Hostname, HostStart)] + BEHIND_DOT, "", "", s, [""], [a] + q);
    assert HOSTNAME == [Look([Start])] + ([Run(Hostname, HostStart)] + BEHIND_DOT);
  }

  lemma HostTakes(h: string, after: string) returns (pieces: seq<string>)
    requires HostShape(h) && after != "" && after[0] == '/'
    ensures Takes(HOSTNAME, "", h + after, pieces) && Join(pieces) == h
  {
    hide Has, Takes, Join;
    var k :| 0 < k < |h| - 1 && h[k] == '.' && All(HostStart, h[..k]) && All(PlainColon, h[k + 1..]);
    var a, b := h[..k], h[k + 1..];
    assert h == a + ("." + b) && h + after == a + ("." + (b + after));
    HostPartsTake(a, b, after);
    pieces := [""] + ([a] + (["."] + ([b] + [""])));
  }

  lemma UserTakes(x: seq<Assertion>, c: Class, before: string, user: string, after: string)
    returns (pieces: seq<string>)
    requires Some1(c, user) && |x| == 1 && Holds(x[0], before, user + "/" + after)
    ensures Takes([Look(x), Run(Username, c), Look([Ahead('/')])] + SLASH, before, user + "/" + after, pieces)
    ensures Join(pieces) == user + "/"
  {
    hide Has, All, Takes, Join;
    assert user + ("/" + after) == user + "/" + after;
    FieldTakes(x, Username, c, [Ahead('/')], before, user, "/" + after, 0, 0);
    LitTakes('/', before + user, after);
    Both([Look(x), Run(Username, c), Look([Ahead('/')])], SLASH, before, user, "/" + after, ["", user, ""], ["/"]);
    pieces := ["", user, ""] + ["/"];
  }

  lemma HeadTakes(head: Head, p: Parts, after: string) returns (pieces: seq<string>)
    requires HeadShape(head, p)
    ensures Takes(HeadItems(head), "", HeadText(head, p) + after, pieces) && Join(pieces) == HeadText(head, p)
  {
    hide Has, All, Takes, HostShape, Join;
    match head
    case Bare =>
      pieces := [];
      NothingTaken("" + after);
    case UserSlash =>
      pieces := UserTakes([Start], Alnum, "", p.user, after);
    case HostUserSlash =>
      var t2 := p.user + "/" + after;
      var t1 := "/" + t2;
      var a := HostTakes(p.host, t1);
      var b := UserTakes([Behind('/')], Plain, p.host + "/", p.user, after);
      LitTakes('/', p.host, t2);
      Both(SLASH, USERNAME + SLASH, p.host, "/", t2, ["/"], b);
      assert "" + p.host == p.host;
      Both(HOSTNAME, SLASH + (USERNAME + SLASH), "", p.host, t1, a, ["/"] + b);
      assert p.host + t1 == HeadText(head, p) + after;
      assert p.host + ("/" + (p.user + "/")) == HeadText(head, p);
      pieces := a + (["/"] + b);
  }

  lemma NothingTaken(text: string)
    ensures Takes([], "", text, []) && Join([]) == ""
  {
  }

  lemma TailTakes(tail: Tail, p: Parts, before: string, e: string) returns (pieces: seq<string>)
    requires TailShape(tail, p) && AtEnd(e)
    ensures Takes(TailItems(tail), before, TailText(tail, p) + e, pieces) && Join(pieces) == TailText(tail, p)
  {
    hide Has, All;
    if tail.NoTail? {
      pieces := [];
    } else {
      var sign := if tail.ColonTag? then ':' else '@';
      var c := if tail.ColonTag? then Plain else PlainColon;
      assert TailText(tail, p) + e == [sign] + (p.tag + e);
      SignedTakes(sign, c, before, p.tag, e);
      pieces := [[sign]] + ["", p.tag, ""];
    }
  }

  lemma SignedTakes(sign: char, c: Class, before: string, tag: string, e: string)
    requires Some1(c, tag) && AtEnd(e)
    ensures Takes([Lit(NoGroup, sign)] + [Look([Behind(sign)]), Run(Tag, c), Look([End])], before, [sign] + (tag + e),
                  [[sign]] + ["", tag, ""])
    ensures Join([[sign]] + ["", tag, ""]) == [sign] + tag
  {
    hide Has, All, Takes, Join;
    LitTakes(sign, before, tag + e);
    FieldTakes([Behind(sign)], Tag, c, [End], before + [sign], tag, e, 0, 0);
    Both([Lit(NoGroup, sign)], [Look([Behind(sign)]), Run(Tag, c), Look([End])], before, [sign], tag + e, [[sign]],
         ["", tag, ""]);
  }

  lemma ImageTakes(head: Head, before: string, image: string, after: string)
    requires Some1(ImageClass(head), image) && (before == "" || before[|before| - 1] == '/')
    requires AtEnd(after) || after[0] == ':' || after[0] == '@'
    ensures Takes(ImageItems(head), before, image + after, ["", image, ""]) && Join(["", image, ""]) == image
  {
    hide Has, All, Takes, Join;
    var i := if before == "" then 1 else 0;
    var j := if AtEnd(after) then 2 else if after[0] == ':' then 0 else 1;
    FieldTakes([Behind('/'), Start], Picture, ImageClass(head), [Ahead(':'), Ahead('@'), End], before, image, after, i,
               j);
  }

  /** Every text of the shape matches the pattern, also with a newline behind it. */
  lemma ShapeMatches(regex: Regex, p: Parts, e: string) returns (pieces: seq<string>)
    requires Shape(regex, p) && AtEnd(e)
    ensures Matches(Pattern(regex), Text(regex, p) + e, pieces) && Join(pieces) == Text(regex, p)
  {
    hide Has, All, Takes, Join, HeadItems, ImageItems, TailItems, HeadShape, TailShape;
    var head, tail := HeadText(regex.head, p), TailText(regex.tail, p);
    var a := HeadTakes(regex.head, p, p.image + (tail + e));
    ImageTakes(regex.head, head, p.image, tail + e);
    var c := TailTakes(regex.tail, p, head + p.image, e);
    Both(ImageItems(regex.head), TailItems(regex.tail), head, p.image, tail + e, ["", p.image, ""], c);
    assert "" + head == head;
    Both(HeadItems(regex.head), ImageItems(regex.head) + TailItems(regex.tail), "", head, p.image + (tail + e), a,
         ["", p.image, ""] + c);
    assert head + (p.image + (tail + e)) == Text(regex, p) + e;
    pieces := a + (["", p.image, ""] + c);
    assert (Text(regex, p) + e)[|Text(regex, p)|..] == e;
  }

  // ------------------------------------------------------------ one way to read

  lemma NoSlash(c: Class, s: string)
    requires All(c, s) && c != PlainSlash
    ensures '/' !in s
  {
  }

  lemma HostHasNoSlash(h: string)
    requires HostShape(h)
    ensures '/' !in h
  {
    hide Has;
    var k :| 0 < k < |h| - 1 && h[k] == '.' && All(HostStart, h[..k]) && All(PlainColon, h[k + 1..]);
    NoSlash(HostStart, h[..k]);
    NoSlash(PlainColon, h[k + 1..]);
    assert h == h[..k] + ("." + h[k + 1..]);
  }

  lemma {:induction false} FirstSlash(a: string, x: string, b: string, y: string)
    requires '/' !in a && '/' !in b && a + ("/" + x) == b + ("/" + y)
    ensures a == b && x == y
  {
    var s, t := a + ("/" + x), b + ("/" + y);
    assert (a != "" ==> s[0] == a[0]) && (b != "" ==> t[0] == b[0]);
    if a == "" && b == "" {
      assert s[1..] == x && t[1..] == y;
    } else if a != "" && b != "" {
      assert s[1..] == a[1..] + ("/" + x) && t[1..] == b[1..] + ("/" + y);
      FirstSlash(a[1..], x, b[1..], y);
    }
  }

  /** What is behind the names that come before the image. */
  function Rest(regex: Regex, p: Parts, e: string): string {
    p.image + (TailText(regex.tail, p) + e)
  }

  lemma RestHasNoSlash(regex: Regex, p: Parts, e: string)
    requires Shape(regex, p) && AtEnd(e) && !regex.head.HostUserSlash?
    ensures '/' !in Rest(regex, p, e)
  {
    hide Has;
    NoSlash(Plain, p.image);
    if !regex.tail.NoTail? {
      NoSlash(if regex.tail.ColonTag? then Plain else PlainColon, p.tag);
    }
  }

  /** Nothing that can stand behind an image or a tag can belong to it. */
  lemma EndsThere(r: Regex, p: Parts, e: string)
    requires AtEnd(e)
    ensures var x := TailText(r.tail, p) + e; x == "" || !Has(ImageClass(r.head), x[0])
    ensures e == "" || !Has(if r.tail.ColonTag? then Plain else PlainColon, e[0])
  {
  }

  lemma SameTail(tail: Tail, p: Parts, e: string, tail': Tail, p': Parts, e': string)
    requires AtEnd(e) && AtEnd(e') && TailText(tail, p) + e == TailText(tail', p') + e'
    ensures tail == tail' && (!tail.NoTail? ==> p.tag + e == p'.tag + e')
  {
    var x, y := TailText(tail, p) + e, TailText(tail', p') + e';
    assert !tail.NoTail? ==> x[0] != '\n' && x[1..] == p.tag + e;
    assert !tail'.NoTail? ==> y[0] != '\n' && y[1..] == p'.tag + e';
  }

  /** The image and what is behind it are determined, and with these the end of the pattern. */
  lemma RestUnique(r: Regex, p: Parts, e: string, r': Regex, p': Parts, e': string)
    requires Shape(r, p) && Shape(r', p') && r.head == r'.head && AtEnd(e) && AtEnd(e')
    requires Rest(r, p, e) == Rest(r', p', e')
    ensures r == r' && p.image == p'.image && p.tag == p'.tag
  {
    hide All, Has, HeadShape, TailText, AtEnd;
    EndsThere(r, p, e);
    EndsThere(r', p', e');
    SpanUnique(ImageClass(r.head), p.image, TailText(r.tail, p) + e, p'.image, TailText(r'.tail, p') + e');
    SameTail(r.tail, p, e, r'.tail, p', e');
    if !r.tail.NoTail? {
      SpanUnique(if r.tail.ColonTag? then Plain else PlainColon, p.tag, e, p'.tag, e');
    }
  }

  /** The text as the names, each with its slash, and the rest. */
  lemma TextParts(r: Regex, p: Parts, e: string)
    ensures Text(r, p) + e ==
      match r.head
      case Bare => Rest(r, p, e)
      case UserSlash => p.user + ("/" + Rest(r, p, e))
      case HostUserSlash => p.host + ("/" + (p.user + ("/" + Rest(r, p, e))))
  {
    assert p.image + TailText(r.tail, p) + e == Rest(r, p, e);
    match r.head
    case Bare => assert Text(r, p) + e == Rest(r, p, e);
    case UserSlash => assert Text(r, p) + e == p.user + ("/" + Rest(r, p, e));
    case HostUserSlash => assert Text(r, p) + e == p.host + ("/" + (p.user + ("/" + Rest(r, p, e))));
  }

  lemma NamesHaveNoSlash(r: Regex, p: Parts)
    requires Shape(r, p)
    ensures '/' !in p.user && '/' !in p.host
  {
    hide Has, All, HostShape;
    match r.head
    case Bare =>
    case UserSlash => NoSlash(Alnum, p.user);
    case HostUserSlash =>
      HostHasNoSlash(p.host);
      NoSlash(Plain, p.user);
  }

  lemma SlashIn(a: string, x: string)
    ensures '/' in a + ("/" + x)
  {
    assert (a + ("/" + x))[|a|] == '/';
  }

  lemma SameHead(r: Regex, p: Parts, e: string, r': Regex, p': Parts, e': string)
    requires Shape(r, p) && Shape(r', p') && AtEnd(e) && AtEnd(e') && Text(r, p) + e == Text(r', p') + e'
    ensures r.head.Bare? ==> r'.head.Bare?
    ensures r.head.UserSlash? ==> !r'.head.HostUserSlash?
  {
    hide Has, All, Shape, Rest, Text;
    TextParts(r, p, e);
    TextParts(r', p', e');
    NamesHaveNoSlash(r, p);
    NamesHaveNoSlash(r', p');
    if !r.head.HostUserSlash? {
      RestHasNoSlash(r, p, e);
      if r.head.UserSlash? && r'.head.HostUserSlash? {
        var y := p'.user + ("/" + Rest(r', p', e'));
        assert y[|p'.user|] == '/';
        FirstSlash(p.user, Rest(r, p, e), p'.host, y);
      }
      if !r'.head.Bare? {
        SlashIn(if r'.head.UserSlash? then p'.user else p'.host,
                if r'.head.UserSlash? then Rest(r', p', e') else p'.user + ("/" + Rest(r', p', e')));
      }
    }
  }

  /** A text has the shape of one pattern only, with one choice of parts. */
  lemma TextUnique(r: Regex, p: Parts, e: string, r': Regex, p': Parts, e': string)
    requires Shape(r, p) && Shape(r', p') && AtEnd(e) && AtEnd(e') && Text(r, p) + e == Text(r', p') + e'
    ensures r == r' && p == p'
  {
    hide Has, All, Rest, Text, HostShape;
    SameHead(r, p, e, r', p', e');
    SameHead(r', p', e', r, p, e);
    TextParts(r, p, e);
    TextParts(r', p', e');
    NamesHaveNoSlash(r, p);
    NamesHaveNoSlash(r', p');
    if r.head.UserSlash? {
      FirstSlash(p.user, Rest(r, p, e), p'.user, Rest(r', p', e'));
    } else if r.head.HostUserSlash? {
      FirstSlash(p.host, p.user + ("/" + Rest(r, p, e)), p'.host, p'.user + ("/" + Rest(r', p', e')));
      FirstSlash(p.user, Rest(r, p, e), p'.user, Rest(r', p', e'));
    }
    RestUnique(r, p, e, r', p', e');
  }

  // ------------------------------------------------------ one interpretation

  lemma ImageIsDeterministic(head: Head, tail: Tail)
    ensures Deterministic(ImageItems(head) + TailItems(tail))
  {
    hide TailItems;
    var c, end := ImageClass(head), TailItems(tail);
    TailIsDeterministic(tail, c);
    var i0 := ImageItems(head) + end;
    var i1 := i0[1..];
    var i2 := i1[1..];
    assert i2[1..] == end;
    assert Deterministic(i2) && Stops(i2, c);
    assert Deterministic(i1);
  }

  lemma PatternsAreDeterministic(regex: Regex)
    ensures Deterministic(Pattern(regex))
  {
    hide ImageItems, TailItems, Deterministic;
    var rest := ImageItems(regex.head) + TailItems(regex.tail);
    ImageIsDeterministic(regex.head, regex.tail);
    match regex.head
    case Bare => assert [] + rest == rest;
    case UserSlash => UserIsDeterministic([Start], Alnum, rest);
    case HostUserSlash =>
      UserIsDeterministic([Behind('/')], Plain, rest);
      HostIsDeterministic((USERNAME + SLASH) + rest);
      assert HeadItems(HostUserSlash) + rest == HOSTNAME + (SLASH + ((USERNAME + SLASH) + rest));
  }

  lemma TailIsDeterministic(tail: Tail, c: Class)
    requires c == Plain || c == PlainSlash
    ensures Deterministic(TailItems(tail)) && Stops(TailItems(tail), c)
  {
    if !tail.NoTail? {
      var items := TailItems(tail);
      assert items[1..][1..][1..] == [Look([End])] && items[1..][1..][1..][1..] == [];
      assert Stops(items[1..][1..][1..], PlainColon) && Stops(items[1..][1..][1..], Plain);
      assert Deterministic(items[1..][1..][1..]);
      assert Deterministic(items[1..][1..]);
    }
  }

  lemma UserIsDeterministic(x: seq<Assertion>, c: Class, rest: seq<Item>)
    requires (c == Alnum || c == Plain) && Deterministic(rest)
    ensures Deterministic(([Look(x), Run(Username, c), Look([Ahead('/')])] + SLASH) + rest)
  {
    var items := ([Look(x), Run(Username, c), Look([Ahead('/')])] + SLASH) + rest;
    var i1 := items[1..];
    var i2 := i1[1..];
    var i3 := i2[1..];
    assert i3[0] == Lit(NoGroup, '/') && i3[1..] == rest;
    assert Deterministic(i3) && Stops(i3, c);
    assert Deterministic(i2) && Stops(i2, c);
    assert Deterministic(i1);
  }

  lemma HostIsDeterministic(rest: seq<Item>)
    requires Deterministic(rest)
    ensures Deterministic(HOSTNAME + (SLASH + rest))
  {
    var items := HOSTNAME + (SLASH + rest);
    var i1 := items[1..];
    var i2 := i1[1..];
    var i3 := i2[1..];
    var i4 := i3[1..];
    var i5 := i4[1..];
    assert i5 == SLASH + rest && i5[1..] == rest;
    assert Deterministic(i5) && Stops(i5, PlainColon);
    assert Deterministic(i4) && Stops(i4, PlainColon);
    assert Deterministic(i3);
    assert Deterministic(i2) && Stops(i2, HostStart);
    assert Deterministic(i1);
  }

  /** A string matches one of the nine patterns at most, and splits into the pieces of it in one way only. */
  lemma OneWayToRead(s: string, r: Regex, pieces: seq<string>, r': Regex, pieces': seq<string>)
    requires Matches(Pattern(r), s, pieces) && Matches(Pattern(r'), s, pieces')
    ensures r == r' && pieces == pieces'
  {
    hide Matches, Pattern, Shape, Text;
    var p := PartsOfMatch(r, s, pieces);
    var p' := PartsOfMatch(r', s, pieces');
    var e, e' := s[|Text(r, p)|..], s[|Text(r', p')|..];
    TextUnique(r, p, e, r', p', e');
    PatternsAreDeterministic(r);
    GreedyIff(Pattern(r), s);
  }

  lemma PartsOfMatch(r: Regex, s: string, pieces: seq<string>) returns (p: Parts)
    requires Matches(Pattern(r), s, pieces)
    ensures |pieces| == |Pattern(r)| && Shape(r, p) && Captures(r, pieces, p)
    ensures Text(r, p) <= s && AtEnd(s[|Text(r, p)|..]) && s == Text(r, p) + s[|Text(r, p)|..]
  {
    hide Pattern, Shape, Text;
    p := MatchHasShape(r, s, pieces);
  }

  /** Every group that is not filled in is in the pattern. */
  lemma GroupsThere(r: Regex, pieces: seq<string>)
    requires |pieces| == |Pattern(r)|
    ensures var dict := GroupDict(Pattern(r), pieces);
      && (r.head.HostUserSlash? ==> Hostname in dict) && (!r.head.Bare? ==> Username in dict)
      && Picture in dict && (!r.tail.NoTail? ==> Tag in dict)
  {
    hide Captured;
    var items := Pattern(r);
    var h, n := |HeadItems(r.head)|, |items|;
    assert items[h + 1] == Run(Picture, ImageClass(r.head));
    if !r.head.Bare? {
      assert items[h - 3].Run? && items[h - 3].group == Username;
    }
    if r.head.HostUserSlash? {
      assert items[1] == Run(Hostname, HostStart);
    }
    if !r.tail.NoTail? {
      assert items[n - 2].Run? && items[n - 2].group == Tag;
    }
  }

  lemma DictIs(r: Regex, pieces: seq<string>, p: Parts)
    requires |pieces| == |Pattern(r)| && Captures(r, pieces, p)
    ensures FromDict(GroupDict(Pattern(r), pieces) + Fill(r)) == ImageOf(r, p)
  {
    hide Captured, Pattern;
    GroupsThere(r, pieces);
  }

  /** The string is a reference of this shape with these parts, but for a newline at its end. */
  ghost predicate Reads(s: string, r: Regex, p: Parts) {
    Shape(r, p) && Text(r, p) <= s && AtEnd(s[|Text(r, p)|..])
  }

  lemma ReadsText(r: Regex, p: Parts, e: string)
    requires Shape(r, p) && AtEnd(e)
    ensures Reads(Text(r, p) + e, r, p)
  {
    hide Shape, Text;
    assert (Text(r, p) + e)[|Text(r, p)|..] == e;
  }

  /** What a pattern makes of a string is what the parts of the string say. */
  lemma InterpretReads(r: Regex, s: string, p: Parts)
    requires Reads(s, r, p)
    ensures Interpret(r, s) == Some(ImageOf(r, p))
  {
    hide Matches, Pattern, Shape, Text, Fill, GroupDict, FromDict, ImageOf, Captures;
    var e := s[|Text(r, p)|..];
    assert s == Text(r, p) + e;
    var pieces := ShapeMatches(r, p, e);
    var p' := PartsOfMatch(r, s, pieces);
    TextUnique(r, p, e, r, p', s[|Text(r, p')|..]);
    PatternsAreDeterministic(r);
    GreedyIff(Pattern(r), s);
    DictIs(r, pieces, p);
  }

  lemma InterpretGives(r: Regex, s: string) returns (p: Parts)
    requires Interpret(r, s).Some?
    ensures Reads(s, r, p)
  {
    hide Matches, Pattern, Shape, Text, Fill, GroupDict, FromDict, ImageOf, Captures;
    PatternsAreDeterministic(r);
    GreedyIff(Pattern(r), s);
    p := PartsOfMatch(r, s, Greedy(Pattern(r), "", s).value);
  }

  lemma OthersDoNotRead(r: Regex, r': Regex, s: string, p: Parts)
    requires Reads(s, r, p) && r' != r
    ensures Interpret(r', s).None?
  {
    hide Interpret, Shape, Text;
    if Interpret(r', s).Some? {
      var p' := InterpretGives(r', s);
      assert s == Text(r, p) + s[|Text(r, p)|..] && s == Text(r', p') + s[|Text(r', p')|..];
      TextUnique(r, p, s[|Text(r, p)|..], r', p', s[|Text(r', p')|..]);
    }
  }

  lemma {:induction false} OnlyOneInterprets(regexes: seq<Regex>, k: nat, s: string)
    requires k < |regexes| && Interpret(regexes[k], s).Some?
    requires forall j | 0 <= j < |regexes| && j != k :: Interpret(regexes[j], s).None?
    ensures Interpretations(regexes, s) == [Interpret(regexes[k], s).value]
  {
    hide Interpret;
    if k == 0 {
      NoneInterprets(regexes[1..], s);
    } else {
      OnlyOneInterprets(regexes[1..], k - 1, s);
    }
  }

  lemma {:induction false} NoneInterprets(regexes: seq<Regex>, s: string)
    requires forall j | 0 <= j < |regexes| :: Interpret(regexes[j], s).None?
    ensures Interpretations(regexes, s) == []
  {
    hide Interpret;
    if regexes != [] {
      NoneInterprets(regexes[1..], s);
    }
  }

  function IndexOf(r: Regex): (k: nat)
    ensures k < |REGEXES| && REGEXES[k] == r
    ensures forall j | 0 <= j < |REGEXES| && j != k :: REGEXES[j] != r
  {
    match r.head
    case Bare => if r.tail.NoTail? then 0 else if r.tail.ColonTag? then 2 else 4
    case UserSlash => if r.tail.NoTail? then 1 else if r.tail.ColonTag? then 3 else 5
    case HostUserSlash => if r.tail.NoTail? then 6 else if r.tail.ColonTag? then 7 else 8
  }

  /** A string that can be read is parsed to the image it stands for. */
  lemma ReadsParses(s: string, r: Regex, p: Parts)
    requires Reads(s, r, p)
    ensures Interpretations(REGEXES, s) == [ImageOf(r, p)] && Parse(s) == Ok(ImageOf(r, p))
  {
    hide Interpret, Interpretations, Reads, ImageOf;
    var k := IndexOf(r);
    InterpretReads(r, s, p);
    forall j | 0 <= j < |REGEXES| && j != k
      ensures Interpret(REGEXES[j], s).None?
    {
      OthersDoNotRead(r, REGEXES[j], s, p);
    }
    OnlyOneInterprets(REGEXES, k, s);
  }

  /** Exactly the readable strings are accepted, and there never are too many interpretations. */
  lemma ParseReads(s: string) returns (r: Regex, p: Parts)
    ensures Parse(s) != Err(TooManyInterpretations) && |Interpretations(REGEXES, s)| <= 1
    ensures if Parse(s).Ok? then Reads(s, r, p) && Parse(s) == Ok(ImageOf(r, p))
            else forall r', p' :: !Reads(s, r', p')
  {
    hide Interpret, Interpretations, Reads, ImageOf;
    r, p := Regex(Bare, NoTail), Parts("", "", "", "");
    if k :| 0 <= k < |REGEXES| && Interpret(REGEXES[k], s).Some? {
      r := REGEXES[k];
      p := InterpretGives(r, s);
      ReadsParses(s, r, p);
    } else {
      NoneInterprets(REGEXES, s);
      assert Parse(s).Err?;
      forall r', p'
        ensures !Reads(s, r', p')
      {
        if Reads(s, r', p') {
          ReadsParses(s, r', p');
        }
      }
    }
  }
}

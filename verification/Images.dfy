/**
 Docker image references: the nine patterns of the parser, which never read a string in two ways,
 and the normal form that an accepted reference can be written in.
 */
module Images {
  import opened Prelude
  import opened Patterns

  datatype Image = Image(hostname: string, name: string, tag: string)

  /** Each pattern has one of three beginnings and one of three ends. */
  datatype Head = Bare | UserSlash | HostUserSlash
  datatype Tail = NoTail | ColonTag | AtSha
  datatype Regex = Regex(head: Head, tail: Tail)

  const HOSTNAME: seq<Item> :=
    [Look([Start]), Run(Hostname, HostStart), Lit(Hostname, '.'), Run(Hostname, PlainColon), Look([Ahead('/')])]
  const DOCKER_USERNAME: seq<Item> := [Look([Start]), Run(Username, Alnum), Look([Ahead('/')])]
  const USERNAME: seq<Item> := [Look([Behind('/')]), Run(Username, Plain), Look([Ahead('/')])]
  const SLASH: seq<Item> := [Lit(NoGroup, '/')]
  const SHA: seq<Item> := [Look([Behind('@')]), Run(Tag, PlainColon), Look([End])]
  const TAG: seq<Item> := [Look([Behind(':')]), Run(Tag, Plain), Look([End])]

  /** The class of an image name; only behind a host name can it contain slashes. */
  function ImageClass(head: Head): Class {
    if head.HostUserSlash? then PlainSlash else Plain
  }

  function ImageItems(head: Head): seq<Item> {
    [Look([Behind('/'), Start]), Run(Picture, ImageClass(head)), Look([Ahead(':'), Ahead('@'), End])]
  }

  function HeadItems(head: Head): seq<Item> {
    match head
    case Bare => []
    case UserSlash => DOCKER_USERNAME + SLASH
    case HostUserSlash => HOSTNAME + (SLASH + (USERNAME + SLASH))
  }

  function TailItems(tail: Tail): seq<Item> {
    match tail
    case NoTail => []
    case ColonTag => [Lit(NoGroup, ':')] + TAG
    case AtSha => [Lit(NoGroup, '@')] + SHA
  }

  function Pattern(regex: Regex): seq<Item> {
    HeadItems(regex.head) + (ImageItems(regex.head) + TailItems(regex.tail))
  }

  /** The patterns in the order in which the parser tries them. */
  const REGEXES: seq<Regex> := [
    Regex(Bare, NoTail), Regex(UserSlash, NoTail), Regex(Bare, ColonTag), Regex(UserSlash, ColonTag),
    Regex(Bare, AtSha), Regex(UserSlash, AtSha),
    Regex(HostUserSlash, NoTail), Regex(HostUserSlash, ColonTag), Regex(HostUserSlash, AtSha)]

  const DOCKER_HUB := "registry-1.docker.io"

  /** What is filled in for the groups that a pattern does not have. */
  function Fill(regex: Regex): map<Group, string> {
    (if regex.head.HostUserSlash? then map[] else map[Hostname := DOCKER_HUB])
    + (if regex.head.Bare? then map[Username := "library"] else map[])
    + (if regex.tail.NoTail? then map[Tag := "latest"] else map[])
  }

  function GroupDict(items: seq<Item>, pieces: seq<string>): map<Group, string>
    requires |items| == |pieces|
  {
    map g | g in {Hostname, Username, Picture, Tag}
      && (exists k | 0 <= k < |items| :: items[k].Run? && items[k].group == g)
      :: Captured(items, pieces, g)
  }

  function Lookup(dict: map<Group, string>, g: Group): string {
    if g in dict then dict[g] else ""
  }

  function FromDict(dict: map<Group, string>): Image {
    Image(Lookup(dict, Hostname), Lookup(dict, Username) + "/" + Lookup(dict, Picture), Lookup(dict, Tag))
  }

  /** What one pattern makes of the string. */
  function Interpret(regex: Regex, path: string): Option<Image> {
    var items := Pattern(regex);
    match Greedy(items, "", path)
    case None => None
    case Some(pieces) => Some(FromDict(GroupDict(items, pieces) + Fill(regex)))
  }

  function Reading(regex: Regex, path: string): seq<Image> {
    match Interpret(regex, path)
    case None => []
    case Some(image) => [image]
  }

  function Interpretations(regexes: seq<Regex>, path: string): seq<Image> {
    if regexes == [] then [] else Reading(regexes[0], path) + Interpretations(regexes[1..], path)
  }

  datatype ParseError = NoInterpretation | TooManyInterpretations

  function Parse(path: string): Result<Image, ParseError> {
    var found := Interpretations(REGEXES, path);
    if |found| == 1 then Ok(found[0]) else if |found| > 1 then Err(TooManyInterpretations) else Err(NoInterpretation)
  }

  // ------------------------------------------------------------------- shapes

  /** The parts of a reference; those that a pattern does not have are empty. */
  datatype Parts = Parts(host: string, user: string, image: string, tag: string)

  /** Something, a dot, and something more. */
  ghost predicate HostShape(h: string) {
    exists k | 0 < k < |h| - 1 :: h[k] == '.' && All(HostStart, h[..k]) && All(PlainColon, h[k + 1..])
  }

  ghost predicate HeadShape(head: Head, p: Parts) {
    match head
    case Bare => p.host == "" && p.user == ""
    case UserSlash => p.host == "" && Some1(Alnum, p.user)
    case HostUserSlash => HostShape(p.host) && Some1(Plain, p.user)
  }

  ghost predicate TailShape(tail: Tail, p: Parts) {
    match tail
    case NoTail => p.tag == ""
    case ColonTag => Some1(Plain, p.tag)
    case AtSha => Some1(PlainColon, p.tag)
  }

  ghost predicate Shape(regex: Regex, p: Parts) {
    HeadShape(regex.head, p) && Some1(ImageClass(regex.head), p.image) && TailShape(regex.tail, p)
  }

  function HeadText(head: Head, p: Parts): string {
    match head
    case Bare => ""
    case UserSlash => p.user + "/"
    case HostUserSlash => p.host + "/" + p.user + "/"
  }

  function TailText(tail: Tail, p: Parts): string {
    match tail
    case NoTail => ""
    case ColonTag => ":" + p.tag
    case AtSha => "@" + p.tag
  }

  function Text(regex: Regex, p: Parts): string {
    HeadText(regex.head, p) + (p.image + TailText(regex.tail, p))
  }

  /** The image that these parts stand for. */
  function ImageOf(regex: Regex, p: Parts): Image {
    Image(if regex.head.HostUserSlash? then p.host else DOCKER_HUB,
          (if regex.head.Bare? then "library" else p.user) + "/" + p.image,
          if regex.tail.NoTail? then "latest" else p.tag)
  }

  // ---------------------------------------------------- from a match to its parts

  lemma FieldGives(x: seq<Assertion>, g: Group, c: Class, y: seq<Assertion>, before: string, text: string,
                   pieces: seq<string>)
    requires Takes([Look(x), Run(g, c), Look(y)], before, text, pieces)
    ensures |pieces| == 3 && Some1(c, pieces[1]) && Join(pieces) == pieces[1]
    ensures forall h :: Captured([Look(x), Run(g, c), Look(y)], pieces, h) == if h == g then pieces[1] else ""
  {
    hide Has, All, Holds;
    var items := [Look(x), Run(g, c), Look(y)];
    TakesFront(items, before, text, pieces);
    assert items[1..] == [Run(g, c), Look(y)] && items[1..][1..] == [Look(y)] && items[1..][1..][1..] == [];
    var p1 := pieces[1..];
    var p2 := p1[1..];
    var t1 := text[|pieces[0]|..];
    assert Takes([Run(g, c), Look(y)], before + pieces[0], t1, p1);
    assert Takes([Look(y)], before + pieces[0] + p1[0], t1[|p1[0]|..], p2);
    assert p1[0] == pieces[1] && p2[0] == "" && p2[1..] == [] && pieces[0] == "";
    assert Join(p2[1..]) == "";
    assert Join(p2) == "" && Join(p1) == pieces[1];
    forall h
      ensures Captured(items, pieces, h) == if h == g then pieces[1] else ""
    {
      assert Captured([Look(y)], p2, h) == "";
      assert Captured([Run(g, c), Look(y)], p1, h) == if h == g then pieces[1] else "";
    }
  }

  lemma LitGives(ch: char, before: string, text: string, pieces: seq<string>)
    requires Takes([Lit(NoGroup, ch)], before, text, pieces)
    ensures pieces == [[ch]] && Join(pieces) == [ch]
    ensures forall h | h != NoGroup :: Captured([Lit(NoGroup, ch)], pieces, h) == ""
  {
    assert pieces[1..] == [];
  }

  lemma HostCaptured(pieces: seq<string>)
    requires |pieces| == 5 && pieces[0] == "" && pieces[2] == "." && pieces[4] == ""
    ensures Join(pieces) == pieces[1] + ("." + pieces[3])
    ensures forall g :: Captured(HOSTNAME, pieces, g) == if g == Hostname then Join(pieces) else ""
  {
    var p1 := pieces[1..];
    var p2 := p1[1..];
    var p3 := p2[1..];
    var p4 := p3[1..];
    var i1 := HOSTNAME[1..];
    var i2 := i1[1..];
    var i3 := i2[1..];
    var i4 := i3[1..];
    assert i1[0] == Run(Hostname, HostStart) && i2[0] == Lit(Hostname, '.') && i3[0] == Run(Hostname, PlainColon);
    assert i4 == [Look([Ahead('/')])] && i4[1..] == [] && p4[1..] == [];
    assert p4 == [""] && p2[0] == "." && p1[0] == pieces[1] && p3[0] == pieces[3];
    assert Join(p4) == "";
    assert p3[0] + "" == p3[0] && Join(p3) == p3[0];
    assert Join(p2) == p2[0] + Join(p3);
    assert Join(p1) == p1[0] + Join(p2);
    forall g
      ensures Captured(HOSTNAME, pieces, g) == if g == Hostname then Join(pieces) else ""
    {
      assert Captured(i4, p4, g) == "";
      assert Captured(i3, p3, g) == if g == Hostname then p3[0] else "";
      assert Captured(i2, p2, g) == if g == Hostname then "." + p3[0] else "";
      assert Captured(i1, p1, g) == if g == Hostname then p1[0] + ("." + p3[0]) else "";
    }
  }

  lemma HostGives(before: string, text: string, pieces: seq<string>)
    requires Takes(HOSTNAME, before, text, pieces)
    ensures |pieces| == 5 && HostShape(Join(pieces))
    ensures forall h :: Captured(HOSTNAME, pieces, h) == if h == Hostname then Join(pieces) else ""
  {
    hide Has, Holds, Captured, Join;
    TakesFront(HOSTNAME, before, text, pieces);
    HostCaptured(pieces);
    HostFrom(pieces[1], pieces[3]);
  }

  lemma HostFrom(a: string, b: string)
    requires Some1(HostStart, a) && Some1(PlainColon, b)
    ensures HostShape(a + ("." + b))
  {
    hide Has;
    var h := a + ("." + b);
    var k := |a|;
    assert h[k] == '.' && h[..k] == a && h[k + 1..] == b;
  }

  /** The part that a field captures is in the group, and the other groups get nothing. */
  lemma HeadGives(head: Head, text: string, pieces: seq<string>) returns (p: Parts)
    requires Takes(HeadItems(head), "", text, pieces)
    ensures |pieces| == |HeadItems(head)| && HeadShape(head, p) && Join(pieces) == HeadText(head, p) && p.image == ""
      && p.tag == ""
    ensures Captured(HeadItems(head), pieces, Hostname) == p.host
      && Captured(HeadItems(head), pieces, Username) == p.user
    ensures Captured(HeadItems(head), pieces, Picture) == "" && Captured(HeadItems(head), pieces, Tag) == ""
  {
    hide Has, All, Takes, Captured, HostShape;
    TakesFront(HeadItems(head), "", text, pieces);
    match head
    case Bare =>
      p := Parts("", "", "", "");
      NothingCaptured(Hostname);
      NothingCaptured(Username);
      NothingCaptured(Picture);
      NothingCaptured(Tag);
    case UserSlash =>
      var user := UserSlashGives([Start], Alnum, "", text, pieces);
      p := Parts("", user, "", "");
    case HostUserSlash =>
      p := HostUserSlashGives(text, pieces);
  }

  lemma NothingCaptured(g: Group)
    ensures Captured([], [], g) == "" && Join([]) == ""
  {
  }

  lemma NoneCaptured(pieces: seq<string>)
    requires pieces == []
    ensures Join(pieces) == "" && forall g :: Captured([], pieces, g) == ""
  {
  }

  /** A name and the slash after it. */
  lemma UserSlashGives(x: seq<Assertion>, c: Class, before: string, text: string, pieces: seq<string>)
    returns (user: string)
    requires Takes([Look(x), Run(Username, c), Look([Ahead('/')])] + SLASH, before, text, pieces)
    ensures |pieces| == 4 && Some1(c, user) && Join(pieces) == user + "/"
    ensures forall g | g != NoGroup ::
              Captured([Look(x), Run(Username, c), Look([Ahead('/')])] + SLASH, pieces, g)
              == if g == Username then user else ""
  {
    hide Has, All, Takes, Captured, Join;
    var field := [Look(x), Run(Username, c), Look([Ahead('/')])];
    TakesSplits(field, SLASH, before, text, pieces);
    var a, b := pieces[..3], pieces[3..];
    FieldGives(x, Username, c, [Ahead('/')], before, text, a);
    LitGives('/', before + Join(a), text[|Join(a)|..], b);
    user := a[1];
    assert pieces == a + b;
    JoinThen(a, b);
    forall g | g != NoGroup
      ensures Captured(field + SLASH, pieces, g) == if g == Username then user else ""
    {
      CapturedThen(field, SLASH, a, b, g);
    }
  }

  lemma HostUserSlashGives(text: string, pieces: seq<string>) returns (p: Parts)
    requires Takes(HeadItems(HostUserSlash), "", text, pieces)
    ensures |pieces| == |HeadItems(HostUserSlash)|
    ensures HeadShape(HostUserSlash, p) && Join(pieces) == HeadText(HostUserSlash, p) && p.image == "" && p.tag == ""
    ensures forall g | g != NoGroup ::
              Captured(HeadItems(HostUserSlash), pieces, g) ==
                if g == Hostname then p.host else if g == Username then p.user else ""
  {
    hide Has, All, Takes, Captured, Join, HostShape;
    var rest := SLASH + (USERNAME + SLASH);
    TakesSplits(HOSTNAME, rest, "", text, pieces);
    var a, b := pieces[..5], pieces[5..];
    HostGives("", text, a);
    var host, text1 := Join(a), text[|Join(a)|..];
    assert "" + host == host;
    TakesSplits(SLASH, USERNAME + SLASH, host, text1, b);
    var b1, b2 := b[..1], b[1..];
    LitGives('/', host, text1, b1);
    var user := UserSlashGives([Behind('/')], Plain, host + Join(b1), text1[|Join(b1)|..], b2);
    assert pieces == a + b && b == b1 + b2;
    JoinThen(a, b);
    JoinThen(b1, b2);
    p := Parts(host, user, "", "");
    assert host + ("/" + (user + "/")) == HeadText(HostUserSlash, p);
    forall g | g != NoGroup
      ensures Captured(HOSTNAME + rest, pieces, g) ==
        if g == Hostname then p.host else if g == Username then p.user else ""
    {
      CapturedThen(HOSTNAME, rest, a, b, g);
      CapturedThen(SLASH, USERNAME + SLASH, b1, b2, g);
    }
  }

  lemma SignedGives(sign: char, x: seq<Assertion>, c: Class, before: string, text: string, pieces: seq<string>)
    returns (tag: string)
    requires Takes([Lit(NoGroup, sign)] + [Look(x), Run(Tag, c), Look([End])], before, text, pieces)
    ensures |pieces| == 4 && Some1(c, tag) && Join(pieces) == [sign] + tag
    ensures forall g | g != NoGroup ::
              Captured([Lit(NoGroup, sign)] + [Look(x), Run(Tag, c), Look([End])], pieces, g) ==
                if g == Tag then tag else ""
  {
    hide Has, All, Takes, Captured, Join;
    var field := [Look(x), Run(Tag, c), Look([End])];
    TakesSplits([Lit(NoGroup, sign)], field, before, text, pieces);
    var a, b := pieces[..1], pieces[1..];
    LitGives(sign, before, text, a);
    FieldGives(x, Tag, c, [End], before + Join(a), text[|Join(a)|..], b);
    tag := b[1];
    assert pieces == a + b;
    JoinThen(a, b);
    forall g | g != NoGroup
      ensures Captured([Lit(NoGroup, sign)] + field, pieces, g) == if g == Tag then tag else ""
    {
      CapturedThen([Lit(NoGroup, sign)], field, a, b, g);
    }
  }

  /** The parts are what the groups have captured. */
  ghost predicate Captures(regex: Regex, pieces: seq<string>, p: Parts)
    requires |pieces| == |Pattern(regex)|
  {
    && Captured(Pattern(regex), pieces, Hostname) == p.host
    && Captured(Pattern(regex), pieces, Username) == p.user
    && Captured(Pattern(regex), pieces, Picture) == p.image
    && Captured(Pattern(regex), pieces, Tag) == p.tag
  }

  /** Everything that matches has the shape of the pattern. */
  lemma MatchHasShape(regex: Regex, s: string, pieces: seq<string>) returns (p: Parts)
    requires Matches(Pattern(regex), s, pieces)
    ensures |pieces| == |Pattern(regex)| && Shape(regex, p) && Captures(regex, pieces, p)
    ensures Join(pieces) == Text(regex, p)
  {
    hide Has, All, Takes, Captured, Join, AtEnd, HeadItems, ImageItems, HeadShape, HeadText;
    var h, i, t := HeadItems(regex.head), ImageItems(regex.head), TailItems(regex.tail);
    TakesSplits(h, i + t, "", s, pieces);
    var a, bc := pieces[..|h|], pieces[|h|..];
    var s1 := s[|Join(a)|..];
    TakesSplits(i, t, "" + Join(a), s1, bc);
    var b, c := bc[..|i|], bc[|i|..];
    var front := HeadGives(regex.head, s, a);
    var image := ImageGives(regex.head, "" + Join(a), s1, b);
    var before, text := "" + Join(a) + Join(b), s1[|Join(b)|..];
    var tag := "";
    match regex.tail {
      case NoTail =>
        NoneCaptured(c);
      case ColonTag =>
        tag := SignedGives(':', [Behind(':')], Plain, before, text, c);
      case AtSha =>
        tag := SignedGives('@', [Behind('@')], PlainColon, before, text, c);
    }
    p := Parts(front.host, front.user, image, tag);
    assert pieces == a + bc && bc == b + c;
    JoinThen(a, bc);
    JoinThen(b, c);
    SamePartsSame(regex, front, p, Parts("", "", "", tag));
    forall g | g != NoGroup
      ensures Captured(Pattern(regex), pieces, g) == Captured(h, a, g) + (Captured(i, b, g) + Captured(t, c, g))
    {
      CapturedThen(h, i + t, a, bc, g);
      CapturedThen(i, t, b, c, g);
    }
  }

  lemma ImageGives(head: Head, before: string, text: string, pieces: seq<string>) returns (image: string)
    requires Takes(ImageItems(head), before, text, pieces)
    ensures |pieces| == |ImageItems(head)| && Some1(ImageClass(head), image) && Join(pieces) == image
    ensures forall g :: Captured(ImageItems(head), pieces, g) == if g == Picture then image else ""
  {
    hide Has, All, Takes, Captured, Join;
    FieldGives([Behind('/'), Start], Picture, ImageClass(head), [Ahead(':'), Ahead('@'), End], before, text, pieces);
    image := pieces[1];
  }

  /** The shapes and texts of the ends only look at their own parts. */
  lemma SamePartsSame(regex: Regex, front: Parts, p: Parts, back: Parts)
    requires p.host == front.host && p.user == front.user && p.tag == back.tag
    ensures HeadShape(regex.head, p) == HeadShape(regex.head, front)
      && HeadText(regex.head, p) == HeadText(regex.head, front)
    ensures TailShape(regex.tail, p) == TailShape(regex.tail, back)
      && TailText(regex.tail, p) == TailText(regex.tail, back)
  {
  }
}

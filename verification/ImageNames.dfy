/** The parser of image references as it runs, and the normal form of what it accepts. */
module ImageNames {
  import opened Prelude
  import opened Patterns
  import opened Images
  import opened ImageForms
  import opened ImageText

  // ---------------------------------------------------------------- the parser

  lemma DictHasKeys(r: Regex, pieces: seq<string>)
    requires |pieces| == |Pattern(r)|
    ensures var dict := GroupDict(Pattern(r), pieces) + Fill(r);
      Hostname in dict && Username in dict && Picture in dict && Tag in dict
  {
    hide Captured, Pattern;
    GroupsThere(r, pieces);
  }

  lemma {:induction false} InterpretationsSnoc(regexes: seq<Regex>, r: Regex, s: string)
    ensures Interpretations(regexes + [r], s)
         == Interpretations(regexes, s) + Reading(r, s)
  {
    hide Reading;
    if regexes == [] {
      assert [r][1..] == [];
      assert [] + Reading(r, s) == Reading(r, s) == Reading(r, s) + [];
    } else {
      assert (regexes + [r])[1..] == regexes[1..] + [r];
      InterpretationsSnoc(regexes[1..], r, s);
    }
  }

  function ImageFrom(dict: map<Group, string>): Image {
    Image(Lookup(dict, Hostname), Lookup(dict, Picture), Lookup(dict, Tag))
  }

  /** Image.from_path */
  method FromPath(path: string) returns (r: Result<Image, ParseError>)
    ensures r == Parse(path)
    ensures r.Ok? ==> RefersTo(path, r.value)
    ensures r.Err? ==> r == Err(NoInterpretation) && forall x :: !RefersTo(path, x)
  {
    hide Pattern, Greedy, Fill, GroupDict, Interpretations;
    NothingLeftOut(path);
    var matches: seq<map<Group, string>> := [];
    for k := 0 to |REGEXES|
      invariant |matches| == |Interpretations(REGEXES[..k], path)|
      invariant forall j | 0 <= j < |matches| :: ImageFrom(matches[j]) == Interpretations(REGEXES[..k], path)[j]
    {
      var regex := REGEXES[k];
      assert REGEXES[..k + 1] == REGEXES[..k] + [regex];
      InterpretationsSnoc(REGEXES[..k], regex, path);
      var found := Greedy(Pattern(regex), "", path);
      if found.Some? {
        DictHasKeys(regex, found.value);
        var dict := GroupDict(Pattern(regex), found.value) + Fill(regex);
        dict := dict[Picture := dict[Username] + "/" + dict[Picture]];
        dict := dict - {Username};
        matches := matches + [dict];
      }
    }
    ParseIff(path);
    if |matches| == 1 {
      return Ok(ImageFrom(matches[0]));
    } else if |matches| > 1 {
      return Err(TooManyInterpretations);
    } else {
      return Err(NoInterpretation);
    }
  }

  lemma NothingLeftOut(path: string)
    ensures Interpretations(REGEXES[..0], path) == []
    ensures Interpretations(REGEXES[..|REGEXES|], path) == Interpretations(REGEXES, path)
  {
    assert REGEXES[..|REGEXES|] == REGEXES;
  }

  // --------------------------------------------------------------- normal form

  ghost predicate NameShape(name: string) {
    exists k | 0 < k < |name| :: name[k] == '/' && IsName(name[..k]) && IsPath(name[k + 1..])
  }

  /** What an image looks like once it is parsed. */
  ghost predicate ImageShape(image: Image) {
    IsHost(image.hostname) && NameShape(image.name) && IsDigest(image.tag)
  }

  function Rendered(image: Image, sign: char): string {
    image.hostname + "/" + image.name + [sign] + image.tag
  }

  lemma NameFrom(u: string, i: string)
    requires IsName(u) && IsPath(i)
    ensures NameShape(u + "/" + i)
  {
    hide LetterOrDigit;
    var name, k := u + "/" + i, |u|;
    assert name[k] == '/' && name[..k] == u && name[k + 1..] == i;
  }

  lemma DockerHubIsHost()
    ensures IsHost(DOCKER_HUB)
  {
    var h := "registry-1.docker.io";
    assert h[10] == '.' && |h| == 20;
    assert DotAt(h, 10);
  }

  lemma Wider(s: string)
    ensures IsWord(s) ==> IsName(s)
    ensures IsName(s) ==> IsPath(s) && IsDigest(s)
  {
    hide LetterOrDigit;
  }

  lemma Defaults()
    ensures IsName("library") && IsName("latest")
  {
  }

  lemma ParsedHasShape(r: Regex, p: Parts)
    requires Shape(r, p)
    ensures ImageShape(ImageOf(r, p))
    ensures !r.tail.AtSha? ==> IsName(ImageOf(r, p).tag)
  {
    hide HostShape, Some1, IsHost, NameShape, IsWord, IsName, IsPath, IsDigest;
    ClassesSpelledOut(p.user);
    ClassesSpelledOut(p.image);
    ClassesSpelledOut(p.tag);
    HostSpelledOut(p.host);
    DockerHubIsHost();
    Defaults();
    Wider(p.user);
    Wider(p.image);
    Wider(p.tag);
    Wider("latest");
    NameFrom(if r.head.Bare? then "library" else p.user, p.image);
  }

  lemma NameSplits(name: string) returns (u: string, i: string)
    requires NameShape(name)
    ensures IsName(u) && IsPath(i) && name == u + "/" + i
  {
    hide LetterOrDigit;
    var k :| 0 < k < |name| && name[k] == '/' && IsName(name[..k]) && IsPath(name[k + 1..]);
    u, i := name[..k], name[k + 1..];
  }

  lemma RenderedReads(image: Image, sign: char) returns (r: Regex, p: Parts)
    requires ImageShape(image)
    requires sign == '@' || (sign == ':' && IsName(image.tag))
    ensures Reads(Rendered(image, sign), r, p) && ImageOf(r, p) == image
  {
    hide HostShape, NameShape, Some1, Reads, IsHost, IsName, IsPath, IsDigest;
    r := Regex(HostUserSlash, if sign == '@' then AtSha else ColonTag);
    var user, name := NameSplits(image.name);
    HostSpelledOut(image.hostname);
    ClassesSpelledOut(user);
    ClassesSpelledOut(name);
    ClassesSpelledOut(image.tag);
    p := Parts(image.hostname, user, name, image.tag);
    ReadsText(r, p, "");
    assert Text(r, p) + "" == Rendered(image, sign);
  }

  /**
   References normalise: whatever is accepted, writing the image as host, name and tag with an '@'
   parses to the same image, and with a ':' exactly when the tag has no colon itself.
   */
  lemma Normalises(s: string)
    requires Parse(s).Ok?
    ensures Parse(Rendered(Parse(s).value, '@')) == Parse(s)
    ensures Parse(Rendered(Parse(s).value, ':')) == Parse(s) <==> ':' !in Parse(s).value.tag
  {
    hide Parse, Reads, ImageOf, Shape, ImageShape, Rendered, NameShape, IsHost, IsName, IsDigest;
    var image := Parse(s).value;
    var r, p := ParseReads(s);
    ReadsShape(s, r, p);
    var r1, p1 := RenderedReads(image, '@');
    ReadsParses(Rendered(image, '@'), r1, p1);
    ColonIff(image.hostname, image.name, image.tag);
    ShapeOfTag(image);
    PlainTag(image.tag);
  }

  lemma PlainTag(tag: string)
    requires IsDigest(tag)
    ensures IsName(tag) <==> ':' !in tag
  {
  }

  lemma ShapeOfTag(image: Image)
    requires ImageShape(image)
    ensures IsDigest(image.tag) && IsHost(image.hostname) && NameShape(image.name)
  {
  }

  lemma ReadsShape(s: string, r: Regex, p: Parts)
    requires Reads(s, r, p)
    ensures ImageShape(ImageOf(r, p))
    ensures '@' !in s ==> IsName(ImageOf(r, p).tag)
  {
    hide ImageShape, ImageOf, Shape;
    ParsedHasShape(r, p);
    if r.tail.AtSha? {
      var k := |HeadText(r.head, p)| + |p.image|;
      assert s[k] == Text(r, p)[k];
    }
  }

  /** The images that come out of the parser are exactly those of this shape. */
  lemma ParsedIff(image: Image)
    ensures (exists s :: Parse(s) == Ok(image)) <==> ImageShape(image)
  {
    hide Parse, Reads, ImageOf, ImageShape, Shape;
    if ImageShape(image) {
      var r, p := RenderedReads(image, '@');
      ReadsParses(Rendered(image, '@'), r, p);
    }
    if s :| Parse(s) == Ok(image) {
      var r, p := ParseReads(s);
      ReadsShape(s, r, p);
    }
  }

  lemma NoAt(s: string)
    requires IsPath(s) || IsDigest(s)
    ensures '@' !in s
  {
  }

  lemma HostHasNoAt(h: string)
    requires IsHost(h)
    ensures '@' !in h
  {
    var k :| DotAt(h, k);
    NoAt(h[k + 1..]);
    assert h == h[..k] + "." + h[k + 1..];
  }

  lemma ShapeHasNoAt(image: Image)
    requires ImageShape(image)
    ensures '@' !in Rendered(image, ':')
  {
    hide IsHost, NameShape, IsName, IsPath, IsDigest;
    HostHasNoAt(image.hostname);
    var u, i := NameSplits(image.name);
    Wider(u);
    NoAt(u);
    NoAt(i);
    NoAt(image.tag);
  }

  /**
   The reference that is put together from a registry, the path of a project and a short commit
   parses to the image that is built beside it if and only if the registry looks like a host, the
   path has a namespace and a name, and the commit is a plain tag.
   */
  lemma ColonIff(registry: string, path: string, commit: string)
    ensures Parse(Rendered(Image(registry, path, commit), ':')) == Ok(Image(registry, path, commit))
        <==> IsHost(registry) && NameShape(path) && IsName(commit)
  {
    hide Parse, Reads, ImageOf, Shape, IsHost, NameShape, IsName, IsDigest;
    var image := Image(registry, path, commit);
    var s := Rendered(image, ':');
    Wider(commit);
    if IsHost(registry) && NameShape(path) && IsName(commit) {
      var r, p := RenderedReads(image, ':');
      ReadsParses(s, r, p);
    }
    if Parse(s) == Ok(image) {
      var r, p := ParseReads(s);
      ReadsShape(s, r, p);
      ShapeHasNoAt(image);
    }
  }
}

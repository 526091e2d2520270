/**
 Image references in characters: which texts the parser accepts, and what it makes of them, written
 out without the patterns, their classes and their shapes.
 */
module ImageText {
  import opened Prelude
  import opened Patterns
  import opened Images
  import opened ImageForms

  predicate LetterOrDigit(c: char) {
    'a' <= c <= 'z' || 'A' <= c <= 'Z' || '0' <= c <= '9'
  }

  /** A user of Docker Hub. */
  predicate IsWord(s: string) {
    |s| > 0 && forall k | 0 <= k < |s| :: LetterOrDigit(s[k])
  }

  predicate IsName(s: string) {
    |s| > 0 && forall k | 0 <= k < |s| :: LetterOrDigit(s[k]) || s[k] == '.' || s[k] == '_' || s[k] == '-'
  }

  predicate IsPath(s: string) {
    && |s| > 0
    && forall k | 0 <= k < |s| :: LetterOrDigit(s[k]) || s[k] == '.' || s[k] == '_' || s[k] == '-' || s[k] == '/'
  }

  predicate IsDigest(s: string) {
    && |s| > 0
    && forall k | 0 <= k < |s| :: LetterOrDigit(s[k]) || s[k] == '.' || s[k] == '_' || s[k] == '-' || s[k] == ':'
  }

  /** Letters, digits, '_' and '-', then a dot, and then these with more dots and a port. */
  ghost predicate IsHost(h: string) {
    exists k :: DotAt(h, k)
  }

  predicate DotAt(h: string, k: int) {
    && 0 < k < |h| - 1
    && h[k] == '.'
    && (forall j | 0 <= j < k :: LetterOrDigit(h[j]) || h[j] == '_' || h[j] == '-')
    && IsDigest(h[k + 1..])
  }

  /** The nine forms of a reference, and the image that each stands for. */
  ghost predicate Written(form: Regex, s: string, x: Image, host: string, user: string, image: string, tag: string) {
    match form
    case Regex(Bare, NoTail) =>
      s == image && IsName(image) && x == Image("registry-1.docker.io", "library/" + image, "latest")
    case Regex(UserSlash, NoTail) =>
      && s == user + "/" + image && IsWord(user) && IsName(image)
      && x == Image("registry-1.docker.io", user + "/" + image, "latest")
    case Regex(Bare, ColonTag) =>
      && s == image + ":" + tag && IsName(image) && IsName(tag)
      && x == Image("registry-1.docker.io", "library/" + image, tag)
    case Regex(UserSlash, ColonTag) =>
      && s == user + "/" + image + ":" + tag && IsWord(user) && IsName(image) && IsName(tag)
      && x == Image("registry-1.docker.io", user + "/" + image, tag)
    case Regex(Bare, AtSha) =>
      && s == image + "@" + tag && IsName(image) && IsDigest(tag)
      && x == Image("registry-1.docker.io", "library/" + image, tag)
    case Regex(UserSlash, AtSha) =>
      && s == user + "/" + image + "@" + tag && IsWord(user) && IsName(image) && IsDigest(tag)
      && x == Image("registry-1.docker.io", user + "/" + image, tag)
    case Regex(HostUserSlash, NoTail) =>
      && s == host + "/" + user + "/" + image && IsHost(host) && IsName(user) && IsPath(image)
      && x == Image(host, user + "/" + image, "latest")
    case Regex(HostUserSlash, ColonTag) =>
      && s == host + "/" + user + "/" + image + ":" + tag && IsHost(host) && IsName(user) && IsPath(image)
      && IsName(tag) && x == Image(host, user + "/" + image, tag)
    case Regex(HostUserSlash, AtSha) =>
      && s == host + "/" + user + "/" + image + "@" + tag && IsHost(host) && IsName(user) && IsPath(image)
      && IsDigest(tag) && x == Image(host, user + "/" + image, tag)
  }

  /** Without the newline that Python's '$' passes over at the end of a string. */
  function WithoutNewline(s: string): string {
    if |s| > 0 && s[|s| - 1] == '\n' then s[..|s| - 1] else s
  }

  /** The text is a reference in one of the nine forms, to this image. */
  ghost predicate RefersTo(s: string, x: Image) {
    exists form, host, user, image, tag :: Written(form, WithoutNewline(s), x, host, user, image, tag)
  }

  // ------------------------------------------------- the classes in characters

  lemma ClassesSpelledOut(s: string)
    ensures Some1(Alnum, s) <==> IsWord(s)
    ensures Some1(Plain, s) <==> IsName(s)
    ensures Some1(PlainSlash, s) <==> IsPath(s)
    ensures Some1(PlainColon, s) <==> IsDigest(s)
  {
    forall ch: char
      ensures Has(Alnum, ch) <==> LetterOrDigit(ch)
      ensures Has(Plain, ch) <==> LetterOrDigit(ch) || ch == '.' || ch == '_' || ch == '-'
      ensures Has(PlainSlash, ch) <==> LetterOrDigit(ch) || ch == '.' || ch == '_' || ch == '-' || ch == '/'
      ensures Has(PlainColon, ch) <==> LetterOrDigit(ch) || ch == '.' || ch == '_' || ch == '-' || ch == ':'
    {
    }
    hide Has, LetterOrDigit;
  }

  lemma HostSpelledOut(h: string)
    ensures HostShape(h) <==> IsHost(h)
  {
    forall k | 0 < k < |h| - 1
      ensures h[k] == '.' && All(HostStart, h[..k]) && All(PlainColon, h[k + 1..]) <==> DotAt(h, k)
    {
      ClassesSpelledOut(h[k + 1..]);
      StartSpelledOut(h[..k]);
      assert forall j | 0 <= j < k :: h[..k][j] == h[j];
    }
    hide All, DotAt;
    assert HostShape(h) ==> IsHost(h) by {
      if k :| 0 < k < |h| - 1 && h[k] == '.' && All(HostStart, h[..k]) && All(PlainColon, h[k + 1..]) {
        assert DotAt(h, k);
      }
    }
  }

  lemma StartSpelledOut(s: string)
    ensures All(HostStart, s) <==> forall j | 0 <= j < |s| :: LetterOrDigit(s[j]) || s[j] == '_' || s[j] == '-'
  {
  }

  // ------------------------------------------------------------ the nine forms

  /** The parts that a form has; the others are empty. */
  function PartsIn(form: Regex, host: string, user: string, image: string, tag: string): Parts {
    Parts(if form.head.HostUserSlash? then host else "", if form.head.Bare? then "" else user, image,
          if form.tail.NoTail? then "" else tag)
  }

  lemma TextSpelledOut(form: Regex, p: Parts)
    ensures Text(form, p) ==
      (match form
       case Regex(Bare, NoTail) => p.image
       case Regex(UserSlash, NoTail) => p.user + "/" + p.image
       case Regex(Bare, ColonTag) => p.image + ":" + p.tag
       case Regex(UserSlash, ColonTag) => p.user + "/" + p.image + ":" + p.tag
       case Regex(Bare, AtSha) => p.image + "@" + p.tag
       case Regex(UserSlash, AtSha) => p.user + "/" + p.image + "@" + p.tag
       case Regex(HostUserSlash, NoTail) => p.host + "/" + p.user + "/" + p.image
       case Regex(HostUserSlash, ColonTag) => p.host + "/" + p.user + "/" + p.image + ":" + p.tag
       case Regex(HostUserSlash, AtSha) => p.host + "/" + p.user + "/" + p.image + "@" + p.tag)
  {
    Regrouped(HeadText(form.head, p), p.image, if form.tail.ColonTag? then ":" else "@", p.tag);
    assert p.image + "" == p.image && "" + p.image == p.image;
  }

  lemma Regrouped(a: string, b: string, c: string, d: string)
    ensures a + (b + (c + d)) == a + b + c + d
  {
  }

  lemma LibrarySpelledOut(image: string)
    ensures "library" + "/" + image == "library/" + image && DOCKER_HUB == "registry-1.docker.io"
  {
    assert "library" + "/" == "library/";
  }

  /** A form in characters is the shape of its pattern, and stands for the same image. */
  lemma WrittenIff(form: Regex, s: string, x: Image, host: string, user: string, image: string, tag: string)
    ensures var p := PartsIn(form, host, user, image, tag);
      Written(form, s, x, host, user, image, tag)
      <==> Shape(form, p) && s == Text(form, p) && x == ImageOf(form, p)
  {
    hide Some1, IsName, IsWord, IsPath, IsDigest, IsHost, HostShape, Text;
    ClassesSpelledOut(image);
    ClassesSpelledOut(user);
    ClassesSpelledOut(tag);
    HostSpelledOut(host);
    LibrarySpelledOut(image);
    TextSpelledOut(form, PartsIn(form, host, user, image, tag));
  }

  lemma ShapeHasNoMore(form: Regex, p: Parts)
    requires Shape(form, p)
    ensures PartsIn(form, p.host, p.user, p.image, p.tag) == p
  {
    hide Some1, HostShape;
  }

  lemma LastIsNoNewline(form: Regex, p: Parts)
    requires Shape(form, p)
    ensures Text(form, p) != "" && Text(form, p)[|Text(form, p)| - 1] != '\n'
  {
    hide HeadShape, HeadText;
    var t := Text(form, p);
    if form.tail.NoTail? {
      assert t[|t| - 1] == p.image[|p.image| - 1];
    } else {
      assert t[|t| - 1] == p.tag[|p.tag| - 1];
    }
  }

  lemma ReadsIff(s: string, form: Regex, p: Parts)
    ensures Reads(s, form, p) <==> Shape(form, p) && WithoutNewline(s) == Text(form, p)
  {
    hide Shape, Text;
    var t := Text(form, p);
    if Shape(form, p) {
      LastIsNoNewline(form, p);
      assert Reads(s, form, p) ==> s == t + s[|t|..];
      assert WithoutNewline(s) == t && s != t ==> s == t + "\n" && s[|t|..] == "\n";
    }
  }

  lemma NoInterpretationLeft(r: Result<Image, ParseError>)
    requires r != Err(TooManyInterpretations)
    ensures r.Err? ==> r == Err(NoInterpretation)
  {
    if r.Err? {
      match r.error
      case NoInterpretation =>
      case TooManyInterpretations =>
    }
  }

  /**
   A reference is accepted exactly when it has one of the nine forms, a newline at its end left aside,
   and it is parsed to the image that the form stands for.  Anything else has no interpretation.
   */
  lemma ParseIff(s: string)
    ensures forall x :: Parse(s) == Ok(x) <==> RefersTo(s, x)
    ensures Parse(s).Err? ==> Parse(s) == Err(NoInterpretation)
  {
    hide Parse, Reads, Shape, Text, ImageOf, Written, PartsIn, WithoutNewline;
    var r, p := ParseReads(s);
    NoInterpretationLeft(Parse(s));
    forall x
      ensures Parse(s) == Ok(x) <==> RefersTo(s, x)
    {
      if Parse(s) == Ok(x) {
        ReadsIff(s, r, p);
        ShapeHasNoMore(r, p);
        WrittenIff(r, WithoutNewline(s), x, p.host, p.user, p.image, p.tag);
      }
      if RefersTo(s, x) {
        var form, host, user, image, tag :| Written(form, WithoutNewline(s), x, host, user, image, tag);
        WrittenIff(form, WithoutNewline(s), x, host, user, image, tag);
        ReadsIff(s, form, PartsIn(form, host, user, image, tag));
        ReadsParses(s, form, PartsIn(form, host, user, image, tag));
      }
    }
  }

  // -------------------------------------------------------- what is not accepted

  predicate Occurs(c: char) {
    LetterOrDigit(c) || c == '.' || c == '_' || c == '-' || c == '/' || c == ':' || c == '@'
  }

  predicate Occurring(s: string) {
    forall k | 0 <= k < |s| :: Occurs(s[k])
  }

  lemma OccurringThen(a: string, b: string)
    requires Occurring(a) && Occurring(b)
    ensures Occurring(a + b)
  {
    hide Occurs;
  }

  lemma PartsOccur(s: string)
    ensures IsWord(s) || IsName(s) || IsPath(s) || IsDigest(s) ==> Occurring(s)
    ensures IsHost(s) ==> Occurring(s)
  {
    if IsHost(s) {
      var k :| DotAt(s, k);
      assert forall j | k < j < |s| :: s[j] == s[k + 1..][j - k - 1];
    }
  }

  /** A character that no part can hold anywhere before the final newline is an error. */
  lemma OthersAreErrors(s: string, k: nat)
    requires k < |WithoutNewline(s)| && !Occurs(s[k])
    ensures Parse(s) == Err(NoInterpretation)
  {
    hide Parse, Occurs, IsWord, IsName, IsPath, IsDigest, IsHost;
    ParseIff(s);
    var t := WithoutNewline(s);
    if Parse(s).Ok? {
      var x := Parse(s).value;
      assert RefersTo(s, x);
      var form, host, user, image, tag :| Written(form, t, x, host, user, image, tag);
      WrittenOccurs(form, t, x, host, user, image, tag);
    }
  }

  lemma WrittenOccurs(form: Regex, s: string, x: Image, host: string, user: string, image: string, tag: string)
    requires Written(form, s, x, host, user, image, tag)
    ensures Occurring(s)
  {
    hide Occurring, IsWord, IsName, IsPath, IsDigest, IsHost;
    PartsOccur(host);
    PartsOccur(user);
    PartsOccur(image);
    PartsOccur(tag);
    SeparatorsOccur();
    if form.head.HostUserSlash? {
      OccurringThen(host, "/");
      OccurringThen(host + "/", user);
      OccurringThen(host + "/" + user, "/");
      OccurringThen(host + "/" + user + "/", image);
    } else if form.head.UserSlash? {
      OccurringThen(user, "/");
      OccurringThen(user + "/", image);
    }
    if !form.tail.NoTail? {
      var front := match form.head
        case Bare => image
        case UserSlash => user + "/" + image
        case HostUserSlash => host + "/" + user + "/" + image;
      var sign := if form.tail.ColonTag? then ":" else "@";
      OccurringThen(front, sign);
      OccurringThen(front + sign, tag);
    }
  }

  lemma SeparatorsOccur()
    ensures Occurring("/") && Occurring(":") && Occurring("@")
  {
  }

  /** The kind of reference that the service starts its sessions from. */
  lemma ProjectImage()
    ensures Parse("registry.renku.ch" + "/" + "group" + "/" + "my-project" + ":" + "0123abc")
         == Ok(Image("registry.renku.ch", "group" + "/" + "my-project", "0123abc"))
  {
    RegistryIsHost();
    ProjectIsNamed();
    CommitIsName();
    Accepts("registry.renku.ch", "group", "my-project", "0123abc");
  }

  /** The form with everything in it. */
  lemma Accepts(host: string, user: string, image: string, tag: string)
    requires IsHost(host) && IsName(user) && IsPath(image) && IsName(tag)
    ensures Parse(host + "/" + user + "/" + image + ":" + tag) == Ok(Image(host, user + "/" + image, tag))
  {
    hide Parse, IsHost, IsName, IsPath;
    var s, x := host + "/" + user + "/" + image + ":" + tag, Image(host, user + "/" + image, tag);
    LastIsTag(host + "/" + user + "/" + image + ":", tag);
    assert Written(Regex(HostUserSlash, ColonTag), WithoutNewline(s), x, host, user, image, tag);
    assert RefersTo(s, x);
    ParseIff(s);
  }

  lemma LastIsTag(front: string, tag: string)
    requires IsName(tag)
    ensures WithoutNewline(front + tag) == front + tag
  {
    assert (front + tag)[|front + tag| - 1] == tag[|tag| - 1];
  }

  lemma RegistryIsHost()
    ensures IsHost("registry.renku.ch")
  {
    var h := "registry.renku.ch";
    assert h[8] == '.' && |h| == 17;
    assert DotAt(h, 8);
  }

  lemma ProjectIsNamed()
    ensures IsName("group") && IsPath("my-project")
  {
  }

  lemma CommitIsName()
    ensures IsName("0123abc")
  {
  }
}

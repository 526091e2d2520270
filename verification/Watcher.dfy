/** The watcher's caches of all namespaces, searched in the arbitrary order in which Go ranges over a map. */
module Watcher {
  import opened Prelude
  import opened Json
  import opened Sessions

  predicate IsAlphanumeric(ch: char) {
    'a' <= ch <= 'z' || 'A' <= ch <= 'Z' || '0' <= ch <= '9'
  }

  /** The values that a Kubernetes label selector accepts. */
  predicate ValidLabelValue(v: string) {
    && |v| <= 63
    && (v != [] ==> IsAlphanumeric(v[0]) && IsAlphanumeric(v[|v| - 1]))
    && (forall k | 0 <= k < |v| :: IsAlphanumeric(v[k]) || v[k] in "-_.")
  }

  /** Letters and digits anywhere, and inside also these three. */
  lemma LabelValuesAre(v: string)
    ensures ValidLabelValue(v) <==> |v| <= 63 && forall k | 0 <= k < |v| ::
      || 'a' <= v[k] <= 'z' || 'A' <= v[k] <= 'Z' || '0' <= v[k] <= '9'
      || (0 < k < |v| - 1 && (v[k] == '-' || v[k] == '_' || v[k] == '.'))
  {
    assert v != [] ==> v[0] in v && v[|v| - 1] in v;
  }

  /** The sessions of one namespace whose names are among these. */
  function Chosen(contents: Contents, names: set<string>): set<Session> {
    set name | name in contents && name in names :: contents[name]
  }

  /** A lister's list: every chosen server once, in any order. */
  method ListChosen(contents: Contents, names: set<string>) returns (res: seq<Session>)
    requires Keyed(contents)
    ensures multiset(res) == multiset(Chosen(contents, names))
  {
    res := [];
    var rest := contents.Keys * names;
    ghost var done := {};
    while rest != {}
      invariant done + rest == contents.Keys * names && done !! rest
      invariant multiset(res) == multiset(Chosen(contents, done))
    {
      var name :| name in rest;
      assert contents[name] !in Chosen(contents, done);
      assert Chosen(contents, done + {name}) == Chosen(contents, done) + {contents[name]};
      res := res + [contents[name]];
      rest, done := rest - {name}, done + {name};
    }
    assert Chosen(contents, done) == Chosen(contents, names);
  }

  class CacheCollection {
    var caches: map<string, Contents>
    const userLabel: string

    constructor (userLabel: string, caches: map<string, Contents>)
      requires forall ns | ns in caches :: Keyed(caches[ns])
      ensures this.userLabel == userLabel && this.caches == caches && Valid()
    {
      this.userLabel, this.caches := userLabel, caches;
    }

    ghost predicate Valid()
      reads this
    {
      forall ns | ns in caches :: Keyed(caches[ns])
    }

    /** Cache.getByUserID */
    method ListByUser(ns: string, user: string) returns (r: Result<seq<Session>, string>)
      requires Valid() && ns in caches
      ensures r.Ok? <==> user == "" || ValidLabelValue(user)
      ensures r.Ok? ==> multiset(r.value) == multiset(ByUser(caches[ns], userLabel, user))
      ensures r.Ok? ==> forall s ::
                s in r.value <==> s in caches[ns].Values && (user == "" || NamesUser(s.doc, userLabel, user))
    {
      var contents := caches[ns];
      var names := contents.Keys;
      if user != "" {
        if !ValidLabelValue(user) {
          return Err("could not set up selector");
        }
        names := set name | name in contents && LabelOf(contents[name], userLabel) == Some(user);
      }
      var list := ListChosen(contents, names);
      assert Chosen(contents, names) == ByUser(contents, userLabel, user);
      LabelledAre(contents, userLabel, user);
      assert forall s :: s in list <==> s in multiset(list);
      return Ok(list);
    }

    /** getByUserID: the lists of all caches, one after the other. */
    method GetByUserID(user: string) returns (r: Result<seq<Session>, string>)
      requires Valid()
      ensures r.Ok? <==> caches == map[] || user == "" || ValidLabelValue(user)
      ensures r.Ok? ==> ListsAll(multiset(r.value), caches, userLabel, user)
      ensures r.Ok? ==> forall s ::
                s in r.value <==> InSome(s, caches) && (user == "" || NamesUser(s.doc, userLabel, user))
    {
      hide Showing, ByUser, ValidLabelValue, Keyed, NamesUser, InSome, ListsAll, ListsPart;
      NoLists(caches, userLabel, user);
      var res: seq<Session> := [];
      var rest := caches.Keys;
      ghost var done: set<string> := {};
      while rest != {}
        invariant done + rest == caches.Keys && done !! rest
        invariant done != {} ==> user == "" || ValidLabelValue(user)
        invariant ListsPart(multiset(res), caches, userLabel, user, done)
      {
        var ns :| ns in rest;
        var list := ListByUser(ns, user);
        if list.Err? {
          return list;
        }
        NextList(res, list.value, caches, userLabel, user, done, ns);
        res := res + list.value;
        rest, done := rest - {ns}, done + {ns};
      }
      AllLists(multiset(res), caches, userLabel, user);
      ListedAre(res, caches, userLabel, user);
      return Ok(res);
    }

    /** getByName: one server at most from each cache. */
    method GetByName(name: string) returns (res: seq<Session>)
      requires Valid()
      ensures |res| == |Holders(caches, name)|
      ensures forall k | 0 <= k < |res| :: IsHeld(res[k], caches, name)
    {
      hide Holders, Keyed, IsHeld;
      res := [];
      var rest := caches.Keys;
      ghost var done: set<string> := {};
      while rest != {}
        invariant done + rest == caches.Keys && done !! rest
        invariant |res| == |Holders(caches, name) * done|
        invariant forall k | 0 <= k < |res| :: IsHeld(res[k], caches, name)
      {
        var ns :| ns in rest;
        OneMoreShows(Holders(caches, name), done, ns);
        HoldsIt(caches, name, ns);
        if name in caches[ns] {
          res := res + [caches[ns][name]];
        }
        rest, done := rest - {ns}, done + {ns};
      }
      HoldersAreCaches(caches, name);
      assert Holders(caches, name) * done == Holders(caches, name);
    }

    /** getByNameAndUserID: servers of others are passed over, so that what is found belongs to the user. */
    method GetByNameAndUserID(name: string, user: string) returns (res: seq<Session>)
      requires Valid()
      ensures |res| == |Owning(caches, userLabel, name, user)|
      ensures forall k | 0 <= k < |res| :: IsHeld(res[k], caches, name) && LabelValue(res[k], userLabel) == user
      ensures user != "" ==>
        && (forall k | 0 <= k < |res| :: res[k].name == name && NamesUser(res[k].doc, userLabel, user))
        && |res| == |set ns | ns in caches && name in caches[ns] && NamesUser(caches[ns][name].doc, userLabel, user)|
    {
      hide Owning, Holders, Keyed, IsHeld, NamesUser, LabelValue;
      res := [];
      var rest := caches.Keys;
      ghost var done: set<string> := {};
      while rest != {}
        invariant done + rest == caches.Keys && done !! rest
        invariant |res| == |Owning(caches, userLabel, name, user) * done|
        invariant forall k | 0 <= k < |res| :: IsHeld(res[k], caches, name) && LabelValue(res[k], userLabel) == user
      {
        var ns :| ns in rest;
        OneMoreShows(Owning(caches, userLabel, name, user), done, ns);
        HoldsIt(caches, name, ns);
        OwnsIt(caches, userLabel, name, user, ns);
        if name in caches[ns] && LabelValue(caches[ns][name], userLabel) == user {
          res := res + [caches[ns][name]];
        }
        rest, done := rest - {ns}, done + {ns};
      }
      OwningAreCaches(caches, userLabel, name, user);
      assert Owning(caches, userLabel, name, user) * done == Owning(caches, userLabel, name, user);
      if user != "" {
        OwningName(caches, userLabel, name, user);
        forall k | 0 <= k < |res|
          ensures res[k].name == name && NamesUser(res[k].doc, userLabel, user)
        {
          HeldNames(res[k], caches, userLabel, name, user);
        }
      }
    }
  }

  /** Go's zero value for a label that is missing. */
  function LabelValue(s: Session, userLabel: string): string {
    match LabelOf(s, userLabel)
    case Some(user) => user
    case None => ""
  }

  function Owning(caches: map<string, Contents>, userLabel: string, name: string, user: string): set<string> {
    set ns | ns in caches && name in caches[ns] && LabelValue(caches[ns][name], userLabel) == user
  }

  /** The server is in some cache. */
  ghost predicate InSome(s: Session, caches: map<string, Contents>) {
    exists ns :: ns in caches && s in caches[ns].Values
  }

  lemma ListedAre(list: seq<Session>, caches: map<string, Contents>, userLabel: string, user: string)
    requires ListsAll(multiset(list), caches, userLabel, user)
    ensures forall s :: s in list <==> InSome(s, caches) && (user == "" || NamesUser(s.doc, userLabel, user))
  {
    hide NamesUser, Labelled;
    forall ns | ns in caches
      ensures forall s :: s in ByUser(caches[ns], userLabel, user)
                     <==> s in caches[ns].Values && (user == "" || NamesUser(s.doc, userLabel, user))
    {
      LabelledAre(caches[ns], userLabel, user);
    }
    hide ByUser;
    forall s: Session
      ensures s in list <==> InSome(s, caches) && (user == "" || NamesUser(s.doc, userLabel, user))
    {
      var showing := Showing(caches, userLabel, user, s);
      assert s in list <==> s in multiset(list);
      assert s in multiset(list) <==> showing != {};
      assert showing != {} ==> exists ns :: ns in showing;
      assert forall ns :: ns in showing <==> ns in caches && s in ByUser(caches[ns], userLabel, user);
    }
  }

  lemma OwningName(caches: map<string, Contents>, userLabel: string, name: string, user: string)
    requires user != ""
    ensures Owning(caches, userLabel, name, user)
      == set ns | ns in caches && name in caches[ns] && NamesUser(caches[ns][name].doc, userLabel, user)
  {
    hide Get;
  }

  lemma HeldNames(s: Session, caches: map<string, Contents>, userLabel: string, name: string, user: string)
    requires (forall ns | ns in caches :: Keyed(caches[ns])) && user != ""
    requires IsHeld(s, caches, name) && LabelValue(s, userLabel) == user
    ensures s.name == name && NamesUser(s.doc, userLabel, user)
  {
    hide Get;
  }

  /** The server is the one of this name in some cache. */
  ghost predicate IsHeld(s: Session, caches: map<string, Contents>, name: string) {
    exists ns :: ns in Holders(caches, name) && s == caches[ns][name]
  }

  lemma HoldsIt(caches: map<string, Contents>, name: string, ns: string)
    requires ns in caches
    ensures ns in Holders(caches, name) <==> name in caches[ns]
    ensures name in caches[ns] ==> IsHeld(caches[ns][name], caches, name)
  {
  }

  lemma OwnsIt(caches: map<string, Contents>, userLabel: string, name: string, user: string, ns: string)
    requires ns in caches
    ensures ns in Owning(caches, userLabel, name, user)
      <==> name in caches[ns] && LabelValue(caches[ns][name], userLabel) == user
  {
  }

  lemma HoldersAreCaches(caches: map<string, Contents>, name: string)
    ensures Holders(caches, name) <= caches.Keys
  {
  }

  lemma OwningAreCaches(caches: map<string, Contents>, userLabel: string, name: string, user: string)
    ensures Owning(caches, userLabel, name, user) <= caches.Keys
  {
  }

  /** The list has each server as often as it is shown by one of the caches that are done. */
  ghost predicate ListsPart(list: multiset<Session>, caches: map<string, Contents>, userLabel: string, user: string,
                            done: set<string>)
  {
    forall s: Session :: list[s] == |Showing(caches, userLabel, user, s) * done|
  }

  lemma NoLists(caches: map<string, Contents>, userLabel: string, user: string)
    ensures ListsPart(multiset{}, caches, userLabel, user, {})
  {
    hide Showing;
  }

  lemma NextList(res: seq<Session>, list: seq<Session>, caches: map<string, Contents>, userLabel: string, user: string,
                 done: set<string>, ns: string)
    requires ListsPart(multiset(res), caches, userLabel, user, done)
    requires ns in caches && ns !in done && multiset(list) == multiset(ByUser(caches[ns], userLabel, user))
    ensures ListsPart(multiset(res + list), caches, userLabel, user, done + {ns})
  {
    hide ByUser;
    forall s: Session
      ensures multiset(res + list)[s] == |Showing(caches, userLabel, user, s) * (done + {ns})|
    {
      OneMoreShows(Showing(caches, userLabel, user, s), done, ns);
      assert multiset(list)[s] == if s in ByUser(caches[ns], userLabel, user) then 1 else 0;
      assert multiset(res + list)[s] == multiset(res)[s] + multiset(list)[s];
    }
  }

  lemma AllLists(list: multiset<Session>, caches: map<string, Contents>, userLabel: string, user: string)
    requires ListsPart(list, caches, userLabel, user, caches.Keys)
    ensures ListsAll(list, caches, userLabel, user)
  {
    hide ByUser;
    forall s: Session
      ensures list[s] == |Showing(caches, userLabel, user, s)|
    {
      assert Showing(caches, userLabel, user, s) * caches.Keys == Showing(caches, userLabel, user, s);
    }
  }

  lemma OneMoreShows(shown: set<string>, done: set<string>, ns: string)
    requires ns !in done
    ensures |shown * (done + {ns})| == |shown * done| + if ns in shown then 1 else 0
  {
    if ns in shown {
      assert shown * (done + {ns}) == shown * done + {ns};
    } else {
      assert shown * (done + {ns}) == shown * done;
    }
  }
}

/**
 Sessions in up to two namespaces, the watcher's caches of them, and the two ways to look them up.
 Whenever the caches are up to date the fallback to the Kubernetes API gives what the cache gives.
 */
module Sessions {
  import opened Prelude
  import opened Json

  /** A JupyterServer object; its name and namespace, which no patch can change, are kept beside it. */
  datatype Session = Session(name: string, namespace: string, doc: Json)

  /** The servers of one namespace, by name. */
  type Contents = map<string, Session>

  datatype Failure =
    | JSCacheError
    | ProgrammingError
    | IntermittentError
    | MissingResourceError
    | CannotStartServerError
    | RetryTimeoutError
    | DeleteServerError
    | PatchServerError
    | AttributeError

  ghost predicate Keyed(contents: Contents) {
    forall name | name in contents :: contents[name].name == name
  }

  function LabelPath(key: string): Path {
    [Key("metadata"), Key("labels"), Key(key)]
  }

  function LabelIn(doc: Json, key: string): Option<string> {
    match Get(doc, LabelPath(key))
    case Some(Str(text)) => Some(text)
    case _ => None
  }

  function LabelOf(s: Session, userLabel: string): Option<string> {
    LabelIn(s.doc, userLabel)
  }

  /** The least object with a label. */
  function WithLabel(key: string, text: string): Json {
    Obj(map["metadata" := Obj(map["labels" := Obj(map[key := Str(text)])])])
  }

  lemma WithLabelHasIt(key: string, text: string)
    ensures LabelIn(WithLabel(key, text), key) == Some(text)
  {
    ThreeTokens(WithLabel(key, text), LabelPath(key));
  }

  /** A server of somebody else is not found. */
  function IfOwned(userLabel: string, user: string, found: Option<Session>): Option<Session> {
    if found.Some? && LabelOf(found.value, userLabel) != Some(user) then None else found
  }

  // --------------------------------------------------------------- one server

  /** The namespaces whose cache has a server of this name. */
  function Holders(caches: map<string, Contents>, name: string): set<string> {
    set ns | ns in caches && name in caches[ns]
  }

  /** JsServerCache.get_server */
  ghost function CachedServer(caches: map<string, Contents>, name: string): Result<Option<Session>, Failure> {
    var holders := Holders(caches, name);
    if holders == {} then Ok(None)
    else if |holders| == 1 then
      var ns :| ns in holders;
      Ok(Some(caches[ns][name]))
    else Err(ProgrammingError)
  }

  /** A cached answer with the check of the owner in K8sClient.get_server. */
  ghost function CachedLookup(caches: map<string, Contents>, userLabel: string, name: string, user: string)
    : Result<Option<Session>, Failure>
  {
    match CachedServer(caches, name)
    case Err(e) => Err(e)
    case Ok(found) => Ok(IfOwned(userLabel, user, found))
  }

  function Hit(contents: Contents, name: string): Option<Session> {
    if name in contents then Some(contents[name]) else None
  }

  /** What the fallback makes of the answers of the two namespaces. */
  function Combined(fromSession: Option<Session>, fromRenku: Option<Session>, userLabel: string, user: string)
    : Result<Option<Session>, Failure>
  {
    if fromSession.Some? && fromRenku.Some? then Err(ProgrammingError)
    else Ok(IfOwned(userLabel, user, if fromSession.Some? then fromSession else fromRenku))
  }

  /** With two namespaces and caches that are up to date, both ways find the same server, none, or too many. */
  lemma GetServerAgrees(renku: Contents, session: Contents, renkuNs: string, sessionNs: string,
                        userLabel: string, name: string, user: string)
    requires renkuNs != sessionNs
    ensures CachedLookup(map[renkuNs := renku, sessionNs := session], userLabel, name, user)
         == Combined(Hit(session, name), Hit(renku, name), userLabel, user)
  {
    var caches := map[renkuNs := renku, sessionNs := session];
    var holders := Holders(caches, name);
    if name in renku && name in session {
      assert holders == {renkuNs, sessionNs};
    } else if name in renku {
      assert holders == {renkuNs};
    } else if name in session {
      assert holders == {sessionNs};
    }
  }

  /** The same with one namespace only. */
  lemma GetServerAgreesInOne(renku: Contents, renkuNs: string, userLabel: string, name: string, user: string)
    ensures CachedLookup(map[renkuNs := renku], userLabel, name, user)
      == Combined(None, Hit(renku, name), userLabel, user)
  {
    if name in renku {
      assert Holders(map[renkuNs := renku], name) == {renkuNs};
    }
  }

  // -------------------------------------------------------------- all servers

  /** The servers that carry the label with this value. */
  function Labelled(contents: Contents, userLabel: string, user: string): set<Session> {
    set name | name in contents && LabelOf(contents[name], userLabel) == Some(user) :: contents[name]
  }

  /** The label that names the user, by its place in the object. */
  predicate NamesUser(doc: Json, userLabel: string, user: string) {
    Get(doc, [Key("metadata"), Key("labels"), Key(userLabel)]) == Some(Str(user))
  }

  lemma LabelledAre(contents: Contents, userLabel: string, user: string)
    ensures forall s: Session ::
              s in Labelled(contents, userLabel, user) <==> s in contents.Values && NamesUser(s.doc, userLabel, user)
  {
    hide Get;
    forall s: Session
      ensures s in Labelled(contents, userLabel, user) <==> s in contents.Values && NamesUser(s.doc, userLabel, user)
    {
      assert LabelOf(s, userLabel) == Some(user) <==> NamesUser(s.doc, userLabel, user);
    }
  }

  /** Cache.getByUserID: an empty user selects everything. */
  function ByUser(contents: Contents, userLabel: string, user: string): set<Session> {
    if user == "" then set name | name in contents :: contents[name] else Labelled(contents, userLabel, user)
  }

  /** The namespaces in whose cache the user's servers include this one. */
  function Showing(caches: map<string, Contents>, userLabel: string, user: string, s: Session): set<string> {
    set ns | ns in caches && s in ByUser(caches[ns], userLabel, user)
  }

  /** A list has each server as often as there are caches that show it. */
  ghost predicate ListsAll(list: multiset<Session>, caches: map<string, Contents>, userLabel: string, user: string) {
    forall s: Session :: list[s] == |Showing(caches, userLabel, user, s)|
  }

  function FallbackList(renku: Contents, session: Contents, userLabel: string, user: string): multiset<Session> {
    multiset(Labelled(renku, userLabel, user)) + multiset(Labelled(session, userLabel, user))
  }

  ghost predicate AllLabelled(contents: Contents, userLabel: string, user: string) {
    forall name | name in contents :: LabelOf(contents[name], userLabel) == Some(user)
  }

  lemma ShowingIs(renku: Contents, session: Contents, renkuNs: string, sessionNs: string, userLabel: string,
                  user: string, s: Session)
    requires renkuNs != sessionNs
    ensures Showing(map[renkuNs := renku, sessionNs := session], userLabel, user, s)
         == (if s in ByUser(renku, userLabel, user) then {renkuNs} else {})
            + (if s in ByUser(session, userLabel, user) then {sessionNs} else {})
  {
    hide ByUser;
  }

  lemma ShowingBoth(renku: Contents, session: Contents, renkuNs: string, sessionNs: string, userLabel: string,
                    user: string, s: Session)
    requires renkuNs != sessionNs
    ensures |Showing(map[renkuNs := renku, sessionNs := session], userLabel, user, s)|
         == (multiset(ByUser(renku, userLabel, user)) + multiset(ByUser(session, userLabel, user)))[s]
  {
    hide ByUser, Showing;
    ShowingIs(renku, session, renkuNs, sessionNs, userLabel, user, s);
    assert {renkuNs} !! {sessionNs};
  }

  lemma CachedListIs(list: multiset<Session>, renku: Contents, session: Contents, renkuNs: string, sessionNs: string,
                     userLabel: string, user: string)
    requires renkuNs != sessionNs && ListsAll(list, map[renkuNs := renku, sessionNs := session], userLabel, user)
    ensures list == multiset(ByUser(renku, userLabel, user)) + multiset(ByUser(session, userLabel, user))
  {
    forall s: Session
      ensures list[s] == (multiset(ByUser(renku, userLabel, user)) + multiset(ByUser(session, userLabel, user)))[s]
    {
      ShowingBoth(renku, session, renkuNs, sessionNs, userLabel, user, s);
    }
  }

  /**
   With caches that are up to date, both ways list the same servers if and only if the user is not
   empty or every server carries the empty text as its user: for an empty user the cache lists
   everything, and the API what is labelled with the empty text.
   */
  lemma ListServersAgreesIff(list: multiset<Session>, renku: Contents, session: Contents, renkuNs: string,
                             sessionNs: string, userLabel: string, user: string)
    requires renkuNs != sessionNs && ListsAll(list, map[renkuNs := renku, sessionNs := session], userLabel, user)
    ensures list == FallbackList(renku, session, userLabel, user)
        <==> (user != "" || (AllLabelled(renku, userLabel, "") && AllLabelled(session, userLabel, "")))
  {
    CachedListIs(list, renku, session, renkuNs, sessionNs, userLabel, user);
    if user == "" {
      EverythingLabelledIff(renku, userLabel);
      EverythingLabelledIff(session, userLabel);
      SumsOfSubsets(Labelled(renku, userLabel, ""), ByUser(renku, userLabel, ""), Labelled(session, userLabel, ""),
                    ByUser(session, userLabel, ""));
    }
  }

  /** A user's only server is listed for the empty user by the cache and not by the API. */
  lemma EmptyUserListsDiffer(user: string, renkuNs: string, sessionNs: string, userLabel: string)
    requires user != "" && renkuNs != sessionNs
    ensures var s := Session("a-server", renkuNs, WithLabel(userLabel, user));
      && ListsAll(multiset{s}, map[renkuNs := map["a-server" := s], sessionNs := map[]], userLabel, "")
      && FallbackList(map["a-server" := s], map[], userLabel, "") == multiset{}
  {
    hide Showing, WithLabel, LabelIn;
    WithLabelHasIt(userLabel, user);
    var s := Session("a-server", renkuNs, WithLabel(userLabel, user));
    var renku: Contents := map["a-server" := s];
    assert renku["a-server"] in ByUser(renku, userLabel, "");
    assert ByUser(renku, userLabel, "") == {s} && ByUser(map[], userLabel, "") == {};
    forall x: Session
      ensures multiset{s}[x] == |Showing(map[renkuNs := renku, sessionNs := map[]], userLabel, "", x)|
    {
      ShowingBoth(renku, map[], renkuNs, sessionNs, userLabel, "", x);
    }
    assert Labelled(renku, userLabel, "") == {} && Labelled(map[], userLabel, "") == {};
  }

  lemma EverythingLabelledIff(contents: Contents, userLabel: string)
    ensures Labelled(contents, userLabel, "") <= ByUser(contents, userLabel, "")
    ensures Labelled(contents, userLabel, "") == ByUser(contents, userLabel, "")
      <==> AllLabelled(contents, userLabel, "")
  {
    if Labelled(contents, userLabel, "") == ByUser(contents, userLabel, "") {
      forall name | name in contents
        ensures LabelOf(contents[name], userLabel) == Some("")
      {
        assert contents[name] in ByUser(contents, userLabel, "");
      }
    }
  }

  /** Both ways of listing give a nonempty user the servers that name the user, each once for each namespace. */
  ghost predicate ListsOwned(list: seq<Session>, renku: Contents, session: Contents, userLabel: string, user: string) {
    forall s: Session :: multiset(list)[s] ==
      (if s in renku.Values && NamesUser(s.doc, userLabel, user) then 1 else 0)
      + (if s in session.Values && NamesUser(s.doc, userLabel, user) then 1 else 0)
  }

  lemma FallbackIsOwned(list: seq<Session>, renku: Contents, session: Contents, userLabel: string, user: string)
    requires multiset(list) == FallbackList(renku, session, userLabel, user)
    ensures ListsOwned(list, renku, session, userLabel, user)
  {
    hide NamesUser, Labelled;
    LabelledAre(renku, userLabel, user);
    LabelledAre(session, userLabel, user);
  }

  lemma CachedIsOwned(list: seq<Session>, renku: Contents, session: Contents, renkuNs: string, sessionNs: string,
                      userLabel: string, user: string)
    requires user != "" && renkuNs != sessionNs
    requires ListsAll(multiset(list), map[renkuNs := renku, sessionNs := session], userLabel, user)
    ensures ListsOwned(list, renku, session, userLabel, user)
  {
    hide NamesUser, Labelled, ListsAll;
    CachedListIs(multiset(list), renku, session, renkuNs, sessionNs, userLabel, user);
    FallbackIsOwned(list, renku, session, userLabel, user);
  }

  lemma CachedIsOwnedInOne(list: seq<Session>, renku: Contents, renkuNs: string, userLabel: string, user: string)
    requires user != "" && ListsAll(multiset(list), map[renkuNs := renku], userLabel, user)
    ensures ListsOwned(list, renku, map[], userLabel, user)
  {
    hide NamesUser, Labelled;
    LabelledAre(renku, userLabel, user);
    forall s: Session
      ensures multiset(list)[s] == if s in renku.Values && NamesUser(s.doc, userLabel, user) then 1 else 0
    {
      var showing := Showing(map[renkuNs := renku], userLabel, user, s);
      assert showing == if s in ByUser(renku, userLabel, user) then {renkuNs} else {};
    }
  }

  lemma SumsOfSubsets(a: set<Session>, a': set<Session>, b: set<Session>, b': set<Session>)
    requires a <= a' && b <= b'
    ensures multiset(a') + multiset(b') == multiset(a) + multiset(b) <==> a == a' && b == b'
  {
    if multiset(a') + multiset(b') == multiset(a) + multiset(b) {
      forall s | s in a'
        ensures s in a
      {
        assert (multiset(a') + multiset(b'))[s] == (multiset(a) + multiset(b))[s];
      }
      forall s | s in b'
        ensures s in b
      {
        assert (multiset(a') + multiset(b'))[s] == (multiset(a) + multiset(b))[s];
      }
    }
  }
}

/**
 The client that the notebook service uses for its sessions: one client for each namespace, the
 watcher in front of them, and the choice between these.  The namespaces are fields that the methods
 change; which requests get through is given by the caller.  What the operations do is what the
 requests of SessionStore do when nothing comes in between.
 */
module SessionClients {
  import opened Prelude
  import opened Json
  import opened Sessions
  import opened ServerPatches
  import Watcher
  import Store = SessionStore

  /** What a read after a creation meets: the server, nothing since somebody has removed it, or no answer. */
  datatype Read = Seen | Missing | Down

  /** Which of the requests get an answer. */
  datatype Network = Network(cache: bool, session: bool, renku: bool, write: bool, polls: nat -> Read)

  /** The answer to the creator of a server: it asks until it sees the server, at most ten times. */
  function Awaited(made: Session, polls: nat -> Read, tries: nat): Result<Option<Session>, Failure>
    decreases Store.TRIES - tries
  {
    if tries >= Store.TRIES then Err(RetryTimeoutError)
    else
      match polls(tries)
      case Seen => Ok(Some(made))
      case Missing => Awaited(made, polls, tries + 1)
      case Down => Err(IntermittentError)
  }

  /** How the wait ends: with the first read that is not empty, and with a timeout when there is none among the ten. */
  lemma {:induction false} AwaitedIff(made: Session, polls: nat -> Read, tries: nat)
    ensures Awaited(made, polls, tries) == Err(RetryTimeoutError) <==> forall k: nat | tries <= k < 10 ::
      polls(k) == Missing
    ensures forall k: nat | tries <= k < 10 && polls(k) != Missing
      && (forall i: nat | tries <= i < k :: polls(i) == Missing) ::
      Awaited(made, polls, tries) == if polls(k) == Seen then Ok(Some(made)) else Err(IntermittentError)
    decreases Store.TRIES - tries
  {
    if tries < Store.TRIES && polls(tries) == Missing {
      AwaitedIff(made, polls, tries + 1);
    }
  }

  /** Where the reads lead a creator in the protocol. */
  function Polled(made: Session, polls: nat -> Read, phase: Store.Phase): Store.Phase
    decreases if phase.Waiting? then Store.TRIES - phase.tries else 0
  {
    if !phase.Waiting? || phase.tries >= Store.TRIES then phase
    else
      match polls(phase.tries)
      case Seen => Polled(made, polls, Store.AfterRead(phase.tries, Some(made)))
      case Missing => Polled(made, polls, Store.AfterRead(phase.tries, None))
      case Down => Store.Finished(Err(IntermittentError))
  }

  /** The answer of the loop is the one that the reads of the protocol lead to. */
  lemma {:induction false} AwaitedIsPolled(made: Session, polls: nat -> Read, tries: nat)
    requires tries < Store.TRIES
    ensures Polled(made, polls, Store.Waiting(tries)) == Store.Finished(Awaited(made, polls, tries))
    decreases Store.TRIES - tries
  {
    if polls(tries) == Missing && tries + 1 < Store.TRIES {
      AwaitedIsPolled(made, polls, tries + 1);
    }
  }

  class NamespacedK8sClient {
    const namespace: string
    var servers: Contents

    constructor (namespace: string, servers: Contents)
      ensures this.namespace == namespace && this.servers == servers
    {
      this.namespace, this.servers := namespace, servers;
    }

    method GetServer(name: string, up: bool) returns (r: Result<Option<Session>, Failure>)
      ensures r == if up then Ok(Hit(servers, name)) else Err(IntermittentError)
    {
      if !up {
        return Err(IntermittentError);
      }
      if name !in servers {
        return Ok(None);
      }
      return Ok(Some(servers[name]));
    }

    /** A selector that is not valid is answered with status 400, which counts as an empty list. */
    method ListServers(userLabel: string, user: string, up: bool) returns (r: Result<seq<Session>, Failure>)
      requires Keyed(servers)
      ensures r.Ok? <==> up
      ensures up ==>
        multiset(r.value) == multiset(if Watcher.ValidLabelValue(user) then Labelled(servers, userLabel, user) else {})
      ensures up && Watcher.ValidLabelValue(user) ==> ListsOwned(r.value, servers, map[], userLabel, user)
    {
      if !up {
        return Err(IntermittentError);
      }
      if !Watcher.ValidLabelValue(user) {
        return Ok([]);
      }
      var names := set name | name in servers && LabelOf(servers[name], userLabel) == Some(user);
      var list := Watcher.ListChosen(servers, names);
      assert Watcher.Chosen(servers, names) == Labelled(servers, userLabel, user);
      NothingLabelled(userLabel, user);
      FallbackIsOwned(list, servers, map[], userLabel, user);
      return Ok(list);
    }

    /** The server stays when the wait for it fails. */
    method CreateServer(name: string, manifest: Json, up: bool, polls: nat -> Read)
      returns (r: Result<Option<Session>, Failure>)
      modifies this
      ensures if up && name !in old(servers) then
                var made := Session(name, namespace, manifest);
                r == Awaited(made, polls, 0) && servers == old(servers)[name := made]
              else r == Err(CannotStartServerError) && servers == old(servers)
    {
      if !up || name in servers {
        return Err(CannotStartServerError);
      }
      servers := servers[name := Session(name, namespace, manifest)];
      var i := 0;
      while i < Store.TRIES
        invariant i <= Store.TRIES
        invariant Awaited(servers[name], polls, 0) == Awaited(servers[name], polls, i)
      {
        match polls(i)
        case Seen => return Ok(Some(servers[name]));
        case Down => return Err(IntermittentError);
        case Missing =>
        i := i + 1;
      }
      return Err(RetryTimeoutError);
    }

    method DeleteServer(name: string, up: bool) returns (ok: bool)
      modifies this
      ensures ok <==> up && name in old(servers)
      ensures servers == if ok then Store.Without(old(servers), name) else old(servers)
    {
      if !up || name !in servers {
        return false;
      }
      servers := Store.Without(servers, name);
      return true;
    }

    method PatchServer(name: string, patch: ServerPatch, up: bool) returns (r: Result<Option<Session>, Failure>)
      modifies this
      ensures var patched := Store.PatchedServer(old(servers), name, patch);
        if up && patched.Some? then r == Ok(patched) && servers == old(servers)[name := patched.value]
        else r == Err(PatchServerError) && servers == old(servers)
    {
      if !up || name !in servers {
        return Err(PatchServerError);
      }
      var doc := Patched(servers[name].doc, patch);
      if doc.None? {
        return Err(PatchServerError);
      }
      servers := servers[name := servers[name].(doc := doc.value)];
      return Ok(Some(servers[name]));
    }
  }

  class JsServerCache {
    const collection: Watcher.CacheCollection

    constructor (collection: Watcher.CacheCollection)
      ensures this.collection == collection
    {
      this.collection := collection;
    }

    method ListServers(user: string, up: bool) returns (r: Result<seq<Session>, Failure>)
      requires collection.Valid()
      ensures r == Err(JSCacheError) || r.Ok?
      ensures r.Ok? <==> up && (collection.caches == map[] || user == "" || Watcher.ValidLabelValue(user))
      ensures r.Ok? ==> ListsAll(multiset(r.value), collection.caches, collection.userLabel, user)
    {
      if !up {
        return Err(JSCacheError);
      }
      var answer := collection.GetByUserID(user);
      match answer
      case Err(_) => return Err(JSCacheError);
      case Ok(list) => return Ok(list);
    }

    method GetServer(name: string, up: bool) returns (r: Result<Option<Session>, Failure>)
      requires collection.Valid()
      ensures r == if up then CachedServer(collection.caches, name) else Err(JSCacheError)
    {
      hide Holders;
      if !up {
        return Err(JSCacheError);
      }
      var output := collection.GetByName(name);
      if |output| == 0 {
        return Ok(None);
      }
      if |output| > 1 {
        return Err(ProgrammingError);
      }
      OneIsHeld(collection.caches, name, output[0]);
      return Ok(Some(output[0]));
    }
  }

  lemma OneIsHeld(caches: map<string, Contents>, name: string, s: Session)
    requires |Holders(caches, name)| == 1 && Watcher.IsHeld(s, caches, name)
    ensures CachedServer(caches, name) == Ok(Some(s))
  {
    var holders := Holders(caches, name);
    var ns :| ns in holders && s == caches[ns][name];
    assert |holders - {ns}| == 0;
    assert holders == {ns};
  }

  /** What the fallback finds, when it is allowed. */
  function Fallback(session: Option<Contents>, renku: Contents, userLabel: string, name: string, user: string,
                    net: Network)
    : Result<Option<Session>, Failure>
  {
    if session.Some? && !net.session then Err(IntermittentError)
    else if !net.renku then Err(IntermittentError)
    else Combined(if session.Some? then Hit(session.value, name) else None, Hit(renku, name), userLabel, user)
  }

  /**
   The result of deleting or patching when there is no session namespace: a server that says it is
   elsewhere has no client that could reach it.
   */
  function WithoutSessions(looked: Result<Option<Session>, Failure>, renkuNs: string,
                           done: Result<Option<Session>, Failure>)
    : Result<Option<Session>, Failure>
  {
    match looked
    case Err(_) => looked
    case Ok(None) => Err(MissingResourceError)
    case Ok(Some(server)) => if server.namespace != renkuNs then Err(AttributeError) else done
  }

  class K8sClient {
    const jsCache: JsServerCache
    const renkuNsClient: NamespacedK8sClient
    const sessionNsClient: NamespacedK8sClient?
    const usernameLabel: string
    const bypassCacheOnFailure: bool

    constructor (jsCache: JsServerCache, renku: NamespacedK8sClient, session: NamespacedK8sClient?,
                 usernameLabel: string, bypass: bool)
      requires usernameLabel != ""
      requires session != null ==> session != renku
      ensures this.jsCache == jsCache && this.renkuNsClient == renku && this.sessionNsClient == session
      ensures this.usernameLabel == usernameLabel && this.bypassCacheOnFailure == bypass
    {
      this.jsCache, this.renkuNsClient, this.sessionNsClient := jsCache, renku, session;
      this.usernameLabel, this.bypassCacheOnFailure := usernameLabel, bypass;
    }

    ghost predicate Valid()
      reads jsCache.collection, renkuNsClient, sessionNsClient
    {
      && jsCache.collection.Valid()
      && sessionNsClient != renkuNsClient
      && Keyed(renkuNsClient.servers)
      && (sessionNsClient != null ==> Keyed(sessionNsClient.servers))
    }

    /** The servers of the session namespace, when there is one. */
    function InSession(): Option<Contents>
      reads sessionNsClient
    {
      if sessionNsClient == null then None else Some(sessionNsClient.servers)
    }

    function SessionServers(): Contents
      reads sessionNsClient
    {
      if sessionNsClient == null then map[] else sessionNsClient.servers
    }

    /** The watcher answers with what there is, or is passed over and the API answers. */
    ghost predicate Answers(net: Network)
      reads jsCache.collection, renkuNsClient, sessionNsClient
    {
      && (sessionNsClient != null ==> sessionNsClient.namespace != renkuNsClient.namespace)
      && if net.cache then
           jsCache.collection.caches
             == if sessionNsClient == null then map[renkuNsClient.namespace := renkuNsClient.servers]
                                        else map[renkuNsClient.namespace := renkuNsClient.servers,
                                                 sessionNsClient.namespace := sessionNsClient.servers]
         else bypassCacheOnFailure && net.renku && (sessionNsClient != null ==> net.session)
    }

    /** The servers of this name say which namespace they are in. */
    ghost predicate InPlace(name: string)
      reads renkuNsClient, sessionNsClient
    {
      && (name in renkuNsClient.servers ==> renkuNsClient.servers[name].namespace == renkuNsClient.namespace)
      && (sessionNsClient != null && name in sessionNsClient.servers ==>
            sessionNsClient.servers[name].namespace == sessionNsClient.namespace)
    }

    /** The server's label names the user. */
    predicate OwnedBy(x: Session, user: string) {
      NamesUser(x.doc, usernameLabel, user)
    }

    lemma LookupIs(name: string, user: string, net: Network)
      requires Answers(net)
      ensures var renku, session := renkuNsClient.servers, SessionServers();
        Lookup(name, user, net) ==
          if name in renku && name in session then Err(ProgrammingError)
          else if name in renku && OwnedBy(renku[name], user) then Ok(Some(renku[name]))
          else if name in session && OwnedBy(session[name], user) then Ok(Some(session[name]))
          else Ok(None)
    {
      hide CachedLookup;
      if sessionNsClient == null {
        GetServerAgreesInOne(renkuNsClient.servers, renkuNsClient.namespace, usernameLabel, name, user);
      } else {
        GetServerAgrees(renkuNsClient.servers, sessionNsClient.servers, renkuNsClient.namespace,
                        sessionNsClient.namespace, usernameLabel, name, user);
      }
    }

    ghost function Lookup(name: string, user: string, net: Network): Result<Option<Session>, Failure>
      reads jsCache.collection, renkuNsClient, sessionNsClient
    {
      if net.cache then CachedLookup(jsCache.collection.caches, usernameLabel, name, user)
      else if !bypassCacheOnFailure then Err(JSCacheError)
      else Fallback(InSession(), renkuNsClient.servers, usernameLabel, name, user, net)
    }

    method GetServer(name: string, user: string, net: Network) returns (r: Result<Option<Session>, Failure>)
      requires Valid()
      ensures r == Lookup(name, user, net)
      ensures Answers(net) ==>
        var renku, session := renkuNsClient.servers, SessionServers();
        r == if name in renku && name in session then Err(ProgrammingError)
             else if name in renku && OwnedBy(renku[name], user) then Ok(Some(renku[name]))
             else if name in session && OwnedBy(session[name], user) then Ok(Some(session[name]))
             else Ok(None)
    {
      if Answers(net) {
        LookupIs(name, user, net);
      }
      var answer := jsCache.GetServer(name, net.cache);
      if answer.Err? && answer.error != JSCacheError {
        return answer;
      }
      var server := if answer.Ok? then answer.value else None;
      if answer.Err? {
        if !bypassCacheOnFailure {
          return answer;
        }
        var output: seq<Session> := [];
        if sessionNsClient != null {
          var res := sessionNsClient.GetServer(name, net.session);
          if res.Err? {
            return res;
          }
          if res.value.Some? {
            output := output + [res.value.value];
          }
        }
        var res := renkuNsClient.GetServer(name, net.renku);
        if res.Err? {
          return res;
        }
        if res.value.Some? {
          output := output + [res.value.value];
        }
        if |output| > 1 {
          return Err(ProgrammingError);
        }
        if |output| == 0 {
          return Ok(None);
        }
        server := Some(output[0]);
      }
      if server.Some? && LabelOf(server.value, usernameLabel) != Some(user) {
        return Ok(None);
      }
      return Ok(server);
    }

    /** What a list of the user's servers may be; the order of the servers is open. */
    ghost predicate IsList(user: string, net: Network, r: Result<seq<Session>, Failure>)
      reads jsCache.collection, renkuNsClient, sessionNsClient
    {
      var cached := net.cache && (jsCache.collection.caches == map[] || user == "" || Watcher.ValidLabelValue(user));
      if cached then r.Ok? && ListsAll(multiset(r.value), jsCache.collection.caches, jsCache.collection.userLabel, user)
      else if !bypassCacheOnFailure then r == Err(JSCacheError)
      else if !net.renku || (sessionNsClient != null && !net.session) then r == Err(IntermittentError)
      else
        && r.Ok?
        && multiset(r.value) == if !Watcher.ValidLabelValue(user) then multiset{}
                                else FallbackList(renkuNsClient.servers,
                                                  if sessionNsClient == null then map[] else sessionNsClient.servers,
                                                  usernameLabel, user)
    }

    /**
     The question for a user's servers is answered with what there is, and the user is one that a
     selector can name.
     */
    ghost predicate Selects(user: string, net: Network)
      reads jsCache.collection, renkuNsClient, sessionNsClient
    {
      Answers(net) && jsCache.collection.userLabel == usernameLabel && user != "" && Watcher.ValidLabelValue(user)
    }

    lemma ListsAreOwned(user: string, net: Network)
      ensures Selects(user, net) ==>
        forall r | IsList(user, net, r) ::
          r.Ok? && ListsOwned(r.value, renkuNsClient.servers, SessionServers(), usernameLabel, user)
    {
      hide Watcher.ValidLabelValue, ListsAll, ListsOwned, FallbackList;
      if Selects(user, net) {
        forall r | IsList(user, net, r)
          ensures r.Ok? && ListsOwned(r.value, renkuNsClient.servers, SessionServers(), usernameLabel, user)
        {
          if !net.cache {
            FallbackIsOwned(r.value, renkuNsClient.servers, SessionServers(), usernameLabel, user);
          } else if sessionNsClient == null {
            CachedIsOwnedInOne(r.value, renkuNsClient.servers, renkuNsClient.namespace, usernameLabel, user);
          } else {
            CachedIsOwned(r.value, renkuNsClient.servers, sessionNsClient.servers, renkuNsClient.namespace,
                          sessionNsClient.namespace, usernameLabel, user);
          }
        }
      }
    }

    /** The fallback lists the Renku namespace first. */
    method ListServers(user: string, net: Network) returns (r: Result<seq<Session>, Failure>)
      requires Valid()
      ensures IsList(user, net, r)
      ensures Selects(user, net) ==>
        r.Ok? && ListsOwned(r.value, renkuNsClient.servers, SessionServers(), usernameLabel, user)
    {
      ListsAreOwned(user, net);
      hide Watcher.ValidLabelValue, Labelled, ByUser, Showing, ListsAll, Keyed;
      var answer := jsCache.ListServers(user, net.cache);
      if answer.Ok? {
        return answer;
      }
      if !bypassCacheOnFailure {
        return answer;
      }
      var inRenku := renkuNsClient.ListServers(usernameLabel, user, net.renku);
      if inRenku.Err? {
        return Err(IntermittentError);
      }
      if sessionNsClient == null {
        NothingLabelled(usernameLabel, user);
        return inRenku;
      }
      var inSession := sessionNsClient.ListServers(usernameLabel, user, net.session);
      if inSession.Err? {
        return Err(IntermittentError);
      }
      return Ok(inRenku.value + inSession.value);
    }

    /** The store that the protocol speaks of. */
    ghost function Snapshot(): Store.Snapshot
      requires sessionNsClient != null
      reads renkuNsClient, sessionNsClient
    {
      Store.Snapshot(renkuNsClient.servers, sessionNsClient.servers)
    }

    ghost function Configured(): Store.Config
      requires sessionNsClient != null
    {
      Store.Config(renkuNsClient.namespace, sessionNsClient.namespace, usernameLabel, bypassCacheOnFailure, _ => "")
    }

    method CreateServer(name: string, user: string, manifest: Json, net: Network)
      returns (r: Result<Option<Session>, Failure>)
      requires Valid()
      modifies renkuNsClient, sessionNsClient
      ensures Valid()
      ensures sessionNsClient != null ==>
        var goal := Store.Create(manifest);
        var phase := Store.AfterLookup(goal, old(Lookup(name, user, net)));
        Carries(Configured(), old(Snapshot()), Store.Request(name, user, goal, phase), net, r, Snapshot())
      ensures sessionNsClient == null ==>
        var looked := old(Lookup(name, user, net));
        var made := Session(name, renkuNsClient.namespace, manifest);
        if looked.Err? || looked.value.Some? then r == looked && renkuNsClient.servers == old(renkuNsClient.servers)
        else if !net.write || name in old(renkuNsClient.servers) then
          r == Err(CannotStartServerError) && renkuNsClient.servers == old(renkuNsClient.servers)
        else r == Awaited(made, net.polls, 0) && renkuNsClient.servers == old(renkuNsClient.servers)[name := made]
      ensures old(Answers(net)) ==>
        var renku, session := old(renkuNsClient.servers), old(SessionServers());
        var here := name in renku && OwnedBy(renku[name], user);
        var there := name in session && OwnedBy(session[name], user);
        var taken := if sessionNsClient == null then name in renku else name in session;
        if (name in renku && name in session) || here || there || taken || !net.write then
          && renkuNsClient.servers == renku && SessionServers() == session
          && r == if name in renku && name in session then Err(ProgrammingError)
                  else if here then Ok(Some(renku[name]))
                  else if there then Ok(Some(session[name]))
                  else Err(CannotStartServerError)
        else if sessionNsClient == null then
          && renkuNsClient.servers == renku[name := Session(name, renkuNsClient.namespace, manifest)]
          && (net.polls(0) == Seen ==> r == Ok(Some(Session(name, renkuNsClient.namespace, manifest))))
        else
          && renkuNsClient.servers == renku
          && sessionNsClient.servers == session[name := Session(name, sessionNsClient.namespace, manifest)]
          && (net.polls(0) == Seen ==> r == Ok(Some(Session(name, sessionNsClient.namespace, manifest))))
    {
      hide Watcher.ValidLabelValue, CachedLookup, Lookup;
      var found := GetServer(name, user, net);
      if found.Err? || found.value.Some? {
        return found;
      }
      if sessionNsClient == null {
        r := renkuNsClient.CreateServer(name, manifest, net.write, net.polls);
      } else {
        r := sessionNsClient.CreateServer(name, manifest, net.write, net.polls);
      }
    }

    method DeleteServer(name: string, user: string, net: Network) returns (r: Result<Option<Session>, Failure>)
      requires Valid()
      modifies renkuNsClient, sessionNsClient
      ensures Valid()
      ensures sessionNsClient != null ==>
        var phase := Store.AfterLookup(Store.Delete, old(Lookup(name, user, net)));
        Carries(Configured(), old(Snapshot()), Store.Request(name, user, Store.Delete, phase), net, r, Snapshot())
      ensures sessionNsClient == null ==>
        var servers := old(renkuNsClient.servers);
        && r == WithoutSessions(old(Lookup(name, user, net)), renkuNsClient.namespace,
                                if name in servers && net.write then Ok(None) else Err(DeleteServerError))
        && renkuNsClient.servers == if r.Ok? then Store.Without(servers, name) else servers
      ensures old(Answers(net)) && old(InPlace(name)) ==>
        var renku, session := old(renkuNsClient.servers), old(SessionServers());
        var owned := (name in renku && OwnedBy(renku[name], user)) || (name in session && OwnedBy(session[name], user));
        if name in renku && name in session then
          r == Err(ProgrammingError) && renkuNsClient.servers == renku && SessionServers() == session
        else if owned && net.write then
          r == Ok(None) && renkuNsClient.servers == renku - {name} && SessionServers() == session - {name}
        else
          && r == Err(if owned then DeleteServerError else MissingResourceError)
          && renkuNsClient.servers == renku && SessionServers() == session
    {
      hide Watcher.ValidLabelValue, CachedLookup, Lookup;
      ghost var renku, session := renkuNsClient.servers, SessionServers();
      assert Store.Without(renku, name) == renku - {name} && Store.Without(session, name) == session - {name};
      r := GetServer(name, user, net);
      if r.Err? {
        return;
      }
      if r.value.None? {
        return Err(MissingResourceError);
      }
      var ok;
      if r.value.value.namespace == renkuNsClient.namespace {
        ok := renkuNsClient.DeleteServer(name, net.write);
      } else if sessionNsClient == null {
        return Err(AttributeError);
      } else {
        ok := sessionNsClient.DeleteServer(name, net.write);
      }
      return if ok then Ok(None) else Err(DeleteServerError);
    }

    method PatchServer(name: string, user: string, patch: ServerPatch, net: Network)
      returns (r: Result<Option<Session>, Failure>)
      requires Valid()
      modifies renkuNsClient, sessionNsClient
      ensures Valid()
      ensures sessionNsClient != null ==>
        var goal := Store.Patch(patch);
        var phase := Store.AfterLookup(goal, old(Lookup(name, user, net)));
        Carries(Configured(), old(Snapshot()), Store.Request(name, user, goal, phase), net, r, Snapshot())
      ensures sessionNsClient == null ==>
        var servers := old(renkuNsClient.servers);
        var patched := Store.PatchedServer(servers, name, patch);
        && r == WithoutSessions(old(Lookup(name, user, net)), renkuNsClient.namespace,
                                if patched.Some? && net.write then Ok(patched) else Err(PatchServerError))
        && renkuNsClient.servers == if r.Ok? && patched.Some? then servers[name := patched.value] else servers
      ensures old(Answers(net)) && old(InPlace(name)) ==>
        var renku, session := old(renkuNsClient.servers), old(SessionServers());
        var here := name in renku && name !in session && OwnedBy(renku[name], user);
        var there := name in session && name !in renku && OwnedBy(session[name], user);
        if here && net.write && Patched(renku[name].doc, patch).Some? then
          var x := renku[name].(doc := Patched(renku[name].doc, patch).value);
          r == Ok(Some(x)) && renkuNsClient.servers == renku[name := x] && SessionServers() == session
        else if there && net.write && Patched(session[name].doc, patch).Some? then
          var x := session[name].(doc := Patched(session[name].doc, patch).value);
          r == Ok(Some(x)) && renkuNsClient.servers == renku && SessionServers() == session[name := x]
        else
          && r == Err(if name in renku && name in session then ProgrammingError
                      else if here || there then PatchServerError else MissingResourceError)
          && renkuNsClient.servers == renku && SessionServers() == session
    {
      hide Watcher.ValidLabelValue, CachedLookup, Patched, Lookup;
      r := GetServer(name, user, net);
      if r.Err? {
        return;
      }
      if r.value.None? {
        return Err(MissingResourceError);
      }
      if r.value.value.namespace == renkuNsClient.namespace {
        r := renkuNsClient.PatchServer(name, patch, net.write);
      } else if sessionNsClient == null {
        return Err(AttributeError);
      } else {
        r := sessionNsClient.PatchServer(name, patch, net.write);
      }
    }
  }

  /** The watcher holds what the two namespaces hold. */
  ghost predicate UpToDate(client: K8sClient)
    reads client.jsCache.collection, client.renkuNsClient, client.sessionNsClient
  {
    && client.sessionNsClient != null && client.renkuNsClient.namespace != client.sessionNsClient.namespace
    && client.jsCache.collection.userLabel == client.usernameLabel
    && client.jsCache.collection.caches
       == map[client.renkuNsClient.namespace := client.renkuNsClient.servers,
              client.sessionNsClient.namespace := client.sessionNsClient.servers]
  }

  /** With a watcher that is up to date, a client that may bypass it finds the same with and without it. */
  lemma LookupsAgree(client: K8sClient, name: string, user: string, with: Network, without: Network)
    requires UpToDate(client) && client.bypassCacheOnFailure
    requires with.cache && !without.cache && without.session && without.renku
    ensures client.Lookup(name, user, with) == client.Lookup(name, user, without)
  {
    hide CachedLookup;
    GetServerAgrees(client.renkuNsClient.servers, client.sessionNsClient.servers,
                    client.renkuNsClient.namespace, client.sessionNsClient.namespace, client.usernameLabel, name, user);
  }

  /**
   With a watcher that is up to date, a client that may bypass it lists the same servers with and
   without it if and only if the user is not empty or all servers carry the empty user.  For a value
   that no selector accepts both ways come to the fallback, which then lists nothing.
   */
  lemma ListsAgreeIff(client: K8sClient, user: string, with: Network, without: Network,
                      cached: Result<seq<Session>, Failure>, direct: Result<seq<Session>, Failure>)
    requires UpToDate(client) && client.bypassCacheOnFailure
    requires with.cache && with.session && with.renku && !without.cache && without.session && without.renku
    requires client.IsList(user, with, cached) && client.IsList(user, without, direct)
    ensures cached.Ok? && direct.Ok?
    ensures multiset(cached.value) == multiset(direct.value) <==>
      (user != "" || (AllLabelled(client.renkuNsClient.servers, client.usernameLabel, "")
                      && AllLabelled(client.sessionNsClient.servers, client.usernameLabel, "")))
  {
    hide Labelled, ByUser, Showing, ListsAll, AllLabelled, FallbackList;
    if user == "" || Watcher.ValidLabelValue(user) {
      ListServersAgreesIff(multiset(cached.value), client.renkuNsClient.servers, client.sessionNsClient.servers,
                           client.renkuNsClient.namespace, client.sessionNsClient.namespace, client.usernameLabel,
                           user);
    } else {
      assert client.renkuNsClient.namespace in client.jsCache.collection.caches;
    }
  }

  lemma NothingLabelled(userLabel: string, user: string)
    ensures Labelled(map[], userLabel, user) == {}
  {
  }

  /** The request was carried out as the protocol says, from its lookup to its end. */
  ghost predicate Carries(c: Store.Config, before: Store.Snapshot, q: Store.Request, net: Network,
                          r: Result<Option<Session>, Failure>, after: Store.Snapshot)
  {
    match q.phase
    case Finished(result) => r == result && after == before
    case Looked(found) =>
      var done := Store.Performed(c, before, q);
      if net.write && done.Some? then
        && after == done.value
        && if q.goal.Create? then r == Awaited(Store.Made(c, q), net.polls, 0)
           else Store.AfterPerform(c, before, q) == Store.Finished(r)
      else r == Err(Store.Refusal(q.goal)) && after == before
    case _ => false
  }
}

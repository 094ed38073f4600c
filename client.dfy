/** The client's `Connection`: its grouping cursor, partners and roles, the
    replacement map it reads from the session, the redirect of single
    lookups, the `wait` barrier and the id/revision bookkeeping of `push`.
    The store is reduced to inputs: the session record, the session's client
    documents, a document map for lookups, the feed and the update handler's
    response. */
module Client {
  import opened Types
  import opened Replacement
  import opened Conditions

  /** The parts of the session document the client reads. */
  datatype Session = Session(groupings: seq<map<Id, seq<Id>>>, roles: seq<map<Id, Role>>, replace: map<Id, Id>)

  /** The `check` argument of `wait`: the session document, all client
      documents of the session, or the current partners' documents only. */
  datatype Scope = SessionScope | ClientsScope | PartnersScope

  /** The `offline_dummy` argument of `get`: a dictionary, a list of
      documents, or anything else. */
  datatype Dummy = DictDummy(dummy: Doc) | ListDummy(dummies: seq<Doc>) | OtherDummy

  /** The update handler's answer to a push: the X-Couch-Id and
      X-Couch-Update-NewRev headers of a saved document, or a rejection. */
  datatype Response = Saved(newId: Id, newRev: Rev) | Rejected

  /** Python's `%`, which rounds the quotient down, so the remainder has the
      sign of the divisor; modulo zero raises. */
  function PyMod(a: int, b: int): (r: Result<int, Error>)
    ensures r.Err? <==> b == 0
    ensures r.Err? ==> r.error == ZeroDivision
    ensures r.Ok? && b > 0 ==> 0 <= r.value < b
    ensures r.Ok? && b < 0 ==> b < r.value <= 0
    ensures r.Ok? && b > 0 ==> r.value == a % b
  {
    if b == 0 then Err(ZeroDivision)
    else if b > 0 || a % b == 0 then Ok(a % b)
    else Ok(a % b + b)
  }

  /** Python's list indexing: a negative index counts from the end. */
  function PyIndex<T>(s: seq<T>, i: int): (r: Result<T, Error>)
    ensures r.Ok? <==> -|s| <= i < |s|
    ensures r.Err? ==> r.error == IndexOutOfRange
    ensures r.Ok? ==> r.value in s
  {
    if 0 <= i < |s| then Ok(s[i])
    else if -|s| <= i < 0 then Ok(s[|s| + i])
    else Err(IndexOutOfRange)
  }

  /** Python's `[x] * n`: empty for n <= 0. */
  function Repeat<T>(x: T, n: int): (r: seq<T>)
    ensures |r| == if n > 0 then n else 0
    ensures forall e :: e in r ==> e == x
  {
    seq(if n > 0 then n else 0, _ => x)
  }

  /** A lookup in the store: the document under `id`, or not found. */
  function Fetch(store: map<Id, Doc>, id: Id): (r: Result<Doc, Error>)
    ensures r.Ok? <==> id in store
  {
    if id in store then Ok(store[id]) else Err(NotFound)
  }

  /** latest_session: the first of the open sessions, newest first; none
      open raises. */
  function LatestSession(open: seq<Id>): (r: Result<Id, Error>)
    ensures r.Err? <==> open == []
    ensures r.Err? ==> r.error == NoOpenSession
    ensures r.Ok? ==> r.value == open[0]
  {
    if open == [] then Err(NoOpenSession) else Ok(open[0])
  }

  class Connection {
    const offline: bool
    const useReplacements: bool
    const groupSize: int
    const groupings: int
    const roles: Option<seq<Role>>
    const session: Id
    var currentGrouping: int
    var doc: Doc

    /** Offline, the client document carries the fixed id "offline". */
    ghost predicate Valid()
      reads this
    {
      offline ==> "_id" in doc && doc["_id"] == "offline"
    }

    /** Builds the client document; offline it gets the id "offline" and the
        session "offline". The grouping cursor starts at the first grouping. */
    constructor (sessionId: Id, offline: bool, useReplacements: bool, groupSize: int, groupingsNeeded: int,
                 roles: Option<seq<Role>>, group: string, clientName: string)
      ensures Valid()
      ensures this.offline == offline && this.useReplacements == useReplacements
      ensures this.groupSize == groupSize && this.groupings == groupingsNeeded && this.roles == roles
      ensures session == if offline then "offline" else sessionId
      ensures currentGrouping == 0
      ensures "session" in doc && doc["session"] == session
      ensures "group" in doc && doc["group"] == group
      ensures "type" in doc && doc["type"] == "client"
      ensures ("_id" in doc <==> offline) && "_rev" !in doc
      ensures "name" in doc <==> clientName != ""
      ensures "name" in doc ==> doc["name"] == clientName
    {
      this.offline := offline;
      this.useReplacements := useReplacements;
      this.groupSize := groupSize;
      this.groupings := groupingsNeeded;
      this.roles := roles;
      var s := if offline then "offline" else sessionId;
      session := s;
      var d := map["session" := s, "group" := group, "type" := "client"];
      if offline {
        d := d["_id" := "offline"];
      }
      if clientName != "" {
        d := d["name" := clientName];
      }
      doc := d;
      currentGrouping := 0;
    }

    /** The `_id` property: None when the document has no id yet. */
    function DocId(): (r: Option<Id>)
      reads this
      ensures r.Some? <==> "_id" in doc
      ensures r.Some? ==> r.value == doc["_id"]
    {
      if "_id" in doc then Some(doc["_id"]) else None
    }

    /** The `_rev` property: None when the document has no revision yet. */
    function DocRev(): (r: Option<Rev>)
      reads this
      ensures r.Some? <==> "_rev" in doc
      ensures r.Some? ==> r.value == doc["_rev"]
    {
      if "_rev" in doc then Some(doc["_rev"]) else None
    }

    /** push: offline nothing happens; otherwise a saved document takes its id
        from the response only when it had none, and always its new revision. */
    method Push(response: Response) returns (r: Result<(), Error>)
      requires Valid()
      modifies this`doc
      ensures Valid()
      ensures offline ==> doc == old(doc) && r.Ok?
      ensures !offline && response.Rejected? ==> doc == old(doc) && r == Err(Conflict)
      ensures !offline && response.Saved? ==> r.Ok?
      ensures !offline && response.Saved? ==>
        doc == (if "_id" in old(doc) then old(doc) else old(doc)["_id" := response.newId])["_rev" := response.newRev]
      ensures !offline && response.Saved? ==>
        DocRev() == Some(response.newRev) && DocId() == (if old(DocId()).Some? then old(DocId()) else Some(response.newId))
    {
      if offline {
        return Ok(());
      }
      match response
      case Rejected =>
        return Err(Conflict);
      case Saved(newId, newRev) =>
        if DocId().None? {
          doc := doc["_id" := newId];
        }
        doc := doc["_rev" := newRev];
        return Ok(());
    }

    /** The `replacements` property: empty offline or when replacements are
        disabled, otherwise the session's `replace` map flattened. */
    function Replacements(replace: map<Id, Id>): (r: Result<map<Id, Id>, Error>)
      reads this
      ensures offline || !useReplacements ==> r == Ok(map[])
      ensures r.Ok? ==> Flat(r.value)
      ensures !offline && useReplacements && r.Ok? ==>
        r.value.Keys == replace.Keys && forall k :: k in replace ==> Resolve(replace, k, MaxIterations) == Ok(r.value[k])
      ensures !offline && useReplacements && r.Err? ==>
        r.error == CircularReplacements && exists k :: k in replace && Resolve(replace, k, MaxIterations).Err?
    {
      if offline || !useReplacements then Ok(map[]) else Flatten(replace)
    }

    /** get: online, the document under `id` (redirected once through the
        replacements unless disabled); offline, the dummy, a pick from the
        dummy list, or the client's own document. `pick` stands for the
        random choice. */
    function Get(id: Id, dummy: Dummy, checkReplacements: bool, replace: map<Id, Id>, store: map<Id, Doc>, pick: nat): (r: Result<Doc, Error>)
      reads this
      ensures offline ==> r.Ok?
      ensures offline && dummy.DictDummy? ==> r.value == dummy.dummy
      ensures offline && dummy.ListDummy? && dummy.dummies != [] ==> r.value in dummy.dummies
      ensures offline && !dummy.DictDummy? && !(dummy.ListDummy? && dummy.dummies != []) ==> r.value == doc
      ensures !offline && !checkReplacements ==> r == Fetch(store, id)
      ensures !offline && checkReplacements && !useReplacements ==> r == Fetch(store, id)
      ensures !offline && checkReplacements && Replacements(replace).Err? ==> r == Err(CircularReplacements)
    {
      if !offline then
        if checkReplacements then
          match Replacements(replace)
          case Err(e) => Err(e)
          case Ok(repl) => Fetch(store, StandIn(repl, id))
        else
          Fetch(store, id)
      else
        match dummy
        case DictDummy(d) => Ok(d)
        case ListDummy(ds) => if ds != [] then Ok(ds[pick % |ds|]) else Ok(doc)
        case OtherDummy => Ok(doc)
    }

    /** current_partners: offline the client's own id `group_size - 1` times;
        online the partner list of this client in the current grouping. */
    function CurrentPartners(s: Session): (r: Result<seq<Id>, Error>)
      reads this
      requires Valid()
      ensures offline ==> r.Ok? && |r.value| == (if groupSize > 1 then groupSize - 1 else 0)
      ensures offline ==> forall p :: p in r.value ==> Some(p) == DocId()
      ensures !offline && r.Ok? ==>
        DocId().Some? && exists g :: g in s.groupings && DocId().value in g && g[DocId().value] == r.value
      ensures !offline && Replacements(s.replace).Err? ==> r == Err(CircularReplacements)
      ensures !offline && Replacements(s.replace).Ok? && PyIndex(s.groupings, currentGrouping).Ok? && DocId().Some? ==>
        (r.Ok? <==> DocId().value in PyIndex(s.groupings, currentGrouping).value) &&
        (r.Ok? ==> r.value == PyIndex(s.groupings, currentGrouping).value[DocId().value])
      ensures !offline && Replacements(s.replace).Ok? && !(-|s.groupings| <= currentGrouping < |s.groupings|) ==>
        r == Err(IndexOutOfRange)
    {
      if offline then
        Ok(Repeat(doc["_id"], groupSize - 1))
      else if Replacements(s.replace).Err? then
        Err(CircularReplacements)
      else
        match PyIndex(s.groupings, currentGrouping)
        case Err(e) => Err(e)
        case Ok(g) =>
          match DocId()
          case None => Err(MissingKey)
          case Some(me) => if me in g then Ok(g[me]) else Err(MissingKey)
    }

    /** get_role: None when no roles are configured; offline the second
        configured role; online the player's role in the current grouping
        (the client's own when no player is given). */
    function GetRole(s: Session, player: Option<Id>): (r: Result<Option<Role>, Error>)
      reads this
      ensures roles.None? ==> r == Ok(None)
      ensures roles.Some? && offline ==> (r.Ok? <==> |roles.value| >= 2)
      ensures roles.Some? && offline && r.Ok? ==> r.value == Some(roles.value[1])
      ensures roles.Some? && !offline && Replacements(s.replace).Err? ==> r == Err(CircularReplacements)
      ensures roles.Some? && !offline && Replacements(s.replace).Ok? && PyIndex(s.roles, currentGrouping).Ok? ==>
        var who := if player.Some? then player else DocId();
        var m := PyIndex(s.roles, currentGrouping).value;
        && (who.None? ==> r == Err(MissingKey))
        && (who.Some? ==> (r.Ok? <==> who.value in m))
        && (who.Some? && r.Ok? ==> r.value == Some(m[who.value]))
      ensures roles.Some? && !offline && Replacements(s.replace).Ok? && !(-|s.roles| <= currentGrouping < |s.roles|) ==>
        r == Err(IndexOutOfRange)
    {
      var who := if player.Some? then player else DocId();
      if roles.None? then Ok(None)
      else if offline then
        if |roles.value| >= 2 then Ok(Some(roles.value[1])) else Err(IndexOutOfRange)
      else if Replacements(s.replace).Err? then
        Err(CircularReplacements)
      else
        match PyIndex(s.roles, currentGrouping)
        case Err(e) => Err(e)
        case Ok(m) =>
          match who
          case None => Err(MissingKey)
          case Some(w) => if w in m then Ok(Some(m[w])) else Err(MissingKey)
    }

    /** The roles of the players `ps`, looked up one after the other; the
        first lookup that raises aborts. */
    function RolesOf(s: Session, ps: seq<Id>): (r: Result<map<Id, Option<Role>>, Error>)
      reads this
      ensures r.Ok? ==> r.value.Keys == set p | p in ps
      ensures r.Ok? ==> forall p :: p in ps ==> GetRole(s, Some(p)) == Ok(r.value[p])
      ensures r.Err? ==> exists p :: p in ps && GetRole(s, Some(p)) == Err(r.error)
      decreases |ps|
    {
      if ps == [] then Ok(map[])
      else
        match GetRole(s, Some(ps[0]))
        case Err(e) => Err(e)
        case Ok(role) =>
          match RolesOf(s, ps[1..])
          case Err(e) => Err(e)
          case Ok(m) => Ok(m[ps[0] := role])
    }

    /** current_partner_roles as it is meant: each current partner mapped to
        its role. */
    function CurrentPartnerRoles(s: Session): (r: Result<map<Id, Option<Role>>, Error>)
      reads this
      requires Valid()
      ensures r.Ok? ==> CurrentPartners(s).Ok?
      ensures r.Ok? ==> r.value.Keys == set p | p in CurrentPartners(s).value
      ensures r.Ok? ==> forall p :: p in r.value ==> GetRole(s, Some(p)) == Ok(r.value[p])
      ensures CurrentPartners(s).Err? ==> r == Err(CurrentPartners(s).error)
      ensures CurrentPartners(s).Ok? ==>
        (r.Ok? <==> forall p :: p in CurrentPartners(s).value ==> GetRole(s, Some(p)).Ok?)
    {
      match CurrentPartners(s)
      case Err(e) => Err(e)
      case Ok(ps) => RolesOf(s, ps)
    }

    /** current_partner_roles as written: offline it indexes the role list
        with a tuple, online it calls an unbound `get_role`. */
    function CurrentPartnerRolesAsWritten(s: Session): (r: Result<map<Id, Option<Role>>, Error>)
      reads this
      requires Valid()
      ensures offline ==> r == Err(TypeMismatch)
      ensures !offline && CurrentPartners(s).Ok? && CurrentPartners(s).value != [] ==> r == Err(UnboundName)
    {
      if offline then Err(TypeMismatch)
      else
        match CurrentPartners(s)
        case Err(e) => Err(e)
        case Ok(ps) => if ps == [] then Ok(map[]) else Err(UnboundName)
    }

    /** reassign_grouping: offline nothing moves; online the cursor advances
        by one and, with rollover, wraps modulo the number of groupings. The
        new partners are returned. */
    method ReassignGrouping(s: Session, allowRollover: bool) returns (partners: Result<seq<Id>, Error>)
      requires Valid()
      modifies this`currentGrouping
      ensures Valid()
      ensures offline ==> currentGrouping == old(currentGrouping)
      ensures !offline && !allowRollover ==> currentGrouping == old(currentGrouping) + 1
      ensures !offline && allowRollover && groupings != 0 ==> PyMod(old(currentGrouping) + 1, groupings) == Ok(currentGrouping)
      ensures !offline && allowRollover && groupings > 0 ==> 0 <= currentGrouping < groupings
      ensures !offline && allowRollover && groupings == 0 ==>
        currentGrouping == old(currentGrouping) + 1 && partners == Err(ZeroDivision)
      ensures !(!offline && allowRollover && groupings == 0) ==> partners == CurrentPartners(s)
    {
      if offline {
        return CurrentPartners(s);
      }
      currentGrouping := currentGrouping + 1;
      if allowRollover {
        var wrapped := PyMod(currentGrouping, groupings);
        if wrapped.Err? {
          return Err(wrapped.error);
        }
        currentGrouping := wrapped.value;
      }
      return CurrentPartners(s);
    }

    /** The dictionary `wait` seeds before listening: the session document
        alone, or every client document of the session (a replaced one judged
        by its replacement's document), cut down to the current partners in
        the partners scope. */
    function Tracked(cond: Doc -> bool, scope: Scope, s: Session, sessionDoc: Doc, clients: map<Id, Doc>): (r: Result<map<Id, bool>, Error>)
      reads this
      requires Valid()
      ensures r.Ok? ==> Replacements(s.replace).Ok?
      ensures r.Ok? && scope == SessionScope ==> r.value == map[session := cond(sessionDoc)]
      ensures r.Ok? && scope == ClientsScope ==> r.value.Keys == clients.Keys
      ensures r.Ok? && scope == PartnersScope ==> r.value.Keys <= clients.Keys
      ensures r.Ok? && scope == PartnersScope && clients != map[] ==>
        CurrentPartners(s).Ok? && r.value.Keys == clients.Keys * set p | p in CurrentPartners(s).value
      ensures r.Err? <==>
        || Replacements(s.replace).Err?
        || (&& scope != SessionScope
            && (|| SeedClients(cond, clients, Replacements(s.replace).value).Err?
                || (scope == PartnersScope && clients != map[] && CurrentPartners(s).Err?)))
      ensures r.Ok? && scope != SessionScope ==> forall k :: k in r.value ==>
        StandIn(Replacements(s.replace).value, k) in clients &&
        r.value[k] == cond(clients[StandIn(Replacements(s.replace).value, k)])
    {
      match Replacements(s.replace)
      case Err(e) => Err(e)
      case Ok(repl) =>
        if scope == SessionScope then Ok(map[session := cond(sessionDoc)])
        else
          match SeedClients(cond, clients, repl)
          case Err(e) => Err(e)
          case Ok(seed) =>
            assert seed == map[] <==> clients == map[] by {
              assert seed.Keys == clients.Keys;
              if clients == map[] {
                assert seed.Keys == {};
              } else {
                var k :| k in clients;
                assert k in seed;
              }
            }
            if scope == ClientsScope || seed == map[] then Ok(seed)
            else
              match CurrentPartners(s)
              case Err(e) =>
                assert scope == PartnersScope;
                Err(e)
              case Ok(ps) => Ok(FilterPartners(seed, ps))
    }

    /** The seeding part of `wait`: reads the replacements, then seeds. */
    method Seed(cond: Doc -> bool, scope: Scope, s: Session, sessionDoc: Doc, clients: map<Id, Doc>)
      returns (r: Result<map<Id, bool>, Error>)
      requires Valid()
      ensures r == Tracked(cond, scope, s, sessionDoc, clients)
    {
      var replacements := Replacements(s.replace);
      if replacements.Err? {
        return Err(replacements.error);
      }
      if scope == SessionScope {
        return Ok(map[session := cond(sessionDoc)]);
      }
      var seeded := SeedFromClients(cond, clients, replacements.value);
      if seeded.Err? {
        return Err(seeded.error);
      }
      var seed := seeded.value;
      if scope == PartnersScope && seed != map[] {
        var partners := CurrentPartners(s);
        if partners.Err? {
          return Err(partners.error);
        }
        seed := FilterPartners(seed, partners.value);
      }
      return Ok(seed);
    }

    /** wait: offline it returns at once; otherwise it seeds the dictionary,
        returns if the aggregate already holds, and else consumes the feed
        from the store's current update sequence. */
    method Wait(cond: Doc -> bool, scope: Scope, agg: Aggregator, s: Session, sessionDoc: Doc,
                clients: map<Id, Doc>, updateSeq: nat, feed: seq<Event>) returns (o: Outcome)
      requires Valid()
      ensures offline ==> o == Skipped
      ensures !offline ==>
        match Tracked(cond, scope, s, sessionDoc, clients)
        case Err(e) => o == Failed(e)
        case Ok(seed) =>
          && Listened(seed, Replacements(s.replace).value, cond, agg, updateSeq, feed, o)
          && (Aggregate(agg, seed) ==> o == Satisfied(seed, updateSeq, 0))
          && (o.Satisfied? || o.Listening? ==> o.met.Keys == seed.Keys)
    {
      if offline {
        return Skipped;
      }
      var seeded := Seed(cond, scope, s, sessionDoc, clients);
      match seeded
      case Err(e) =>
        return Failed(e);
      case Ok(seed) =>
        if Aggregate(agg, seed) {
          ListenedAtSeed(seed, Replacements(s.replace).value, cond, agg, updateSeq, feed);
          return Satisfied(seed, updateSeq, 0);
        }
        o := ConsumeFeed(seed, Replacements(s.replace).value, cond, agg, updateSeq, feed);
        ListenedKeepsKeys(seed, Replacements(s.replace).value, cond, agg, updateSeq, feed, o);
    }
  }

  /** With replacements in use, get's single redirect through the flattened
      map fetches the end of the whole replacement chain. */
  lemma GetFollowsChain(c: Connection, id: Id, dummy: Dummy, replace: map<Id, Id>, store: map<Id, Doc>, pick: nat)
    requires !c.offline && c.useReplacements && Flatten(replace).Ok?
    ensures id in replace ==>
      && Resolve(replace, id, MaxIterations).Ok?
      && c.Get(id, dummy, true, replace, store, pick) == Fetch(store, Resolve(replace, id, MaxIterations).value)
    ensures id !in replace ==> c.Get(id, dummy, true, replace, store, pick) == Fetch(store, id)
  {
  }

  /** In a client scope, an id that was not replaced is judged by its own
      document and a replaced id by the document at the end of its
      replacement chain. */
  lemma TrackedFollowsChain(c: Connection, cond: Doc -> bool, scope: Scope, s: Session, sessionDoc: Doc, clients: map<Id, Doc>)
    requires c.Valid() && !c.offline && c.useReplacements && scope != SessionScope
    requires c.Tracked(cond, scope, s, sessionDoc, clients).Ok?
    ensures forall k :: k in c.Tracked(cond, scope, s, sessionDoc, clients).value ==>
      if k in s.replace then
        Resolve(s.replace, k, MaxIterations).Ok? &&
        c.Tracked(cond, scope, s, sessionDoc, clients).value[k] == cond(clients[Resolve(s.replace, k, MaxIterations).value])
      else
        c.Tracked(cond, scope, s, sessionDoc, clients).value[k] == cond(clients[k])
  {
  }

  /** Offline with a group of two, the only partner is the client itself. */
  lemma OfflinePairsWithSelf(c: Connection, s: Session)
    requires c.Valid() && c.offline && c.groupSize == 2
    ensures c.CurrentPartners(s) == Ok(["offline"])
  {
    var ps := c.CurrentPartners(s).value;
    assert |ps| == 1 && ps[0] in ps;
    assert ps == ["offline"];
  }

  /** Offline, the intended partner roles pair the client's own id with the
      role get_role gives, while the code as written raises. */
  lemma PartnerRolesAsWrittenRaises(c: Connection, s: Session)
    requires c.Valid() && c.offline && c.groupSize == 2
    requires c.roles.Some? && |c.roles.value| >= 2
    ensures c.CurrentPartnerRolesAsWritten(s) == Err(TypeMismatch)
    ensures c.CurrentPartnerRoles(s) == Ok(map["offline" := Some(c.roles.value[1])])
  {
    OfflinePairsWithSelf(c, s);
    assert c.RolesOf(s, ["offline"][1..]) == Ok(map[]);
  }

  /** With three groupings, rolling over from the last grouping returns to
      the first. */
  lemma RolloverExample()
    ensures PyMod(2 + 1, 3) == Ok(0)
    ensures PyMod(0 + 1, 3) == Ok(1)
  {
  }
}

/** Condition tracking inside `wait`: the dictionary from tracked id to
    "condition met", how it is seeded from the session's client documents,
    how each change-feed event updates it, and how the feed is consumed until
    the aggregate holds. The feed is a finite sequence of events. */
module Conditions {
  import opened Types
  import opened Replacement

  /** The built-in aggregation functions, Python's `all` and `any`. */
  datatype Aggregator = All | Any

  /** One line of the continuous changes feed: a document update carrying its
      sequence number, id and document, or a `last_seq` marker. */
  datatype Event =
    | Change(seqNo: nat, id: Id, doc: Doc)
    | LastSeq(seqNo: nat)

  /** How a `wait` call ends. `Listening` means the finite feed ran out while
      the condition still failed: the client would go on listening. */
  datatype Outcome =
    | Skipped
    | Satisfied(met: map<Id, bool>, cursor: nat, consumed: nat)
    | Listening(met: map<Id, bool>, cursor: nat)
    | Failed(error: Error)

  /** The aggregation function applied to the dictionary's values. */
  function Aggregate(agg: Aggregator, met: map<Id, bool>): (holds: bool)
    ensures agg == All ==> (holds <==> false !in met.Values)
    ensures agg == Any ==> (holds <==> true in met.Values)
    ensures met == map[] ==> (holds <==> agg == All)
  {
    match agg
    case All => forall k :: k in met ==> met[k]
    case Any => exists k :: k in met && met[k]
  }

  /** The id whose document decides the entry of `id`: its replacement when
      it has one. */
  function StandIn(repl: map<Id, Id>, id: Id): Id
  {
    if id in repl then repl[id] else id
  }

  /** The seeded dictionary for the client scopes: one entry per client
      document, evaluated on the replacement's document for a replaced id.
      A replacement that is not a client document of the session is a
      missing key. */
  function SeedClients(cond: Doc -> bool, clients: map<Id, Doc>, repl: map<Id, Id>): (r: Result<map<Id, bool>, Error>)
    requires Flat(repl)
    ensures r.Err? <==> exists id :: id in clients && id in repl && repl[id] !in clients
    ensures r.Err? ==> r.error == MissingKey
    ensures r.Ok? ==> r.value.Keys == clients.Keys
  {
    if forall id :: id in clients && id in repl ==> repl[id] in clients then
      Ok(map id | id in clients :: cond(clients[StandIn(repl, id)]))
    else
      Err(MissingKey)
  }

  /** The seeding loop: fills the dictionary one client document at a time,
      looking a replaced id up with indirect_lookup. */
  method SeedFromClients(cond: Doc -> bool, clients: map<Id, Doc>, repl: map<Id, Id>) returns (r: Result<map<Id, bool>, Error>)
    requires Flat(repl)
    ensures r == SeedClients(cond, clients, repl)
  {
    var met: map<Id, bool> := map[];
    var todo := clients.Keys;
    while todo != {}
      invariant todo <= clients.Keys
      invariant met.Keys == clients.Keys - todo
      invariant forall id :: id in met ==> StandIn(repl, id) in clients && met[id] == cond(clients[StandIn(repl, id)])
      decreases todo
    {
      var id :| id in todo;
      if id !in repl {
        met := met[id := cond(clients[id])];
      } else {
        var found := IndirectLookup(repl, id, MaxIterations);
        FlatResolve(repl, id, MaxIterations);
        var target := found.value;
        if target !in clients {
          return Err(MissingKey);
        }
        met := met[id := cond(clients[target])];
      }
      todo := todo - {id};
    }
    assert met == map id | id in clients :: cond(clients[StandIn(repl, id)]);
    return Ok(met);
  }

  /** The partners-scope filter: only entries whose id is a current partner. */
  function FilterPartners(met: map<Id, bool>, partners: seq<Id>): (r: map<Id, bool>)
    ensures forall k :: k in r <==> k in met && k in partners
    ensures forall k :: k in r ==> r[k] == met[k]
  {
    map k | k in met && k in partners :: met[k]
  }

  /** Every tracked entry whose replacement is `target` takes the value `v`;
      the others keep theirs. */
  function Redirect(met: map<Id, bool>, repl: map<Id, Id>, target: Id, v: bool): (r: map<Id, bool>)
    ensures r.Keys == met.Keys
    ensures forall k :: k in met && k in repl && repl[k] == target ==> r[k] == v
    ensures forall k :: k in met && !(k in repl && repl[k] == target) ==> r[k] == met[k]
  {
    map k | k in met :: if k in repl && repl[k] == target then v else met[k]
  }

  /** The loop over the replacement items, updating the dictionary in place. */
  method RedirectInPlace(met: map<Id, bool>, repl: map<Id, Id>, target: Id, v: bool) returns (r: map<Id, bool>)
    ensures r == Redirect(met, repl, target, v)
  {
    r := met;
    var todo := repl.Keys;
    while todo != {}
      invariant todo <= repl.Keys
      invariant r.Keys == met.Keys
      invariant forall k :: k in met ==> r[k] == if k in repl && k !in todo && repl[k] == target then v else met[k]
      decreases todo
    {
      var k :| k in todo;
      if k in r && repl[k] == target {
        r := r[k := v];
      }
      todo := todo - {k};
    }
  }

  /** What a document update does to the dictionary: a tracked id overwrites
      its own entry; otherwise, if it is a replacement target, the entries
      replaced by it are overwritten; otherwise nothing changes. */
  function Update(met: map<Id, bool>, repl: map<Id, Id>, cond: Doc -> bool, id: Id, doc: Doc): (r: map<Id, bool>)
    ensures r.Keys == met.Keys
    ensures id in met ==> r[id] == cond(doc) && forall k :: k in met && k != id ==> r[k] == met[k]
    ensures id !in met && id !in repl.Values ==> r == met
    ensures id !in met ==> forall k :: k in met && StandIn(repl, k) != id ==> r[k] == met[k]
    ensures id !in met ==> forall k :: k in met && k in repl && repl[k] == id ==> r[k] == cond(doc)
  {
    if id in met then met[id := cond(doc)]
    else if id in repl.Values then Redirect(met, repl, id, cond(doc))
    else met
  }

  /** Handling of one document line. */
  method ProcessChange(met: map<Id, bool>, repl: map<Id, Id>, cond: Doc -> bool, id: Id, doc: Doc) returns (r: map<Id, bool>)
    ensures r == Update(met, repl, cond, id, doc)
  {
    if id in met {
      r := met[id := cond(doc)];
    } else if id in repl.Values {
      r := RedirectInPlace(met, repl, id, cond(doc));
    } else {
      r := met;
    }
  }

  /** What one feed event does to the dictionary: a `last_seq` marker leaves
      it alone. */
  function Step(met: map<Id, bool>, repl: map<Id, Id>, cond: Doc -> bool, ev: Event): map<Id, bool>
  {
    match ev
    case LastSeq(_) => met
    case Change(_, id, doc) => Update(met, repl, cond, id, doc)
  }

  /** The dictionary after the events `evs`, applied in order. */
  function Replay(met: map<Id, bool>, repl: map<Id, Id>, cond: Doc -> bool, evs: seq<Event>): (r: map<Id, bool>)
    ensures r.Keys == met.Keys
    decreases |evs|
  {
    if evs == [] then met
    else Step(Replay(met, repl, cond, evs[..|evs| - 1]), repl, cond, evs[|evs| - 1])
  }

  /** The resume cursor after the events `evs`: every line, document or
      marker, sets it to the sequence number it carries. */
  function Cursor(start: nat, evs: seq<Event>): nat
  {
    if evs == [] then start else evs[|evs| - 1].seqNo
  }

  /** Appending one line to the feed: a `last_seq` marker leaves the
      dictionary as it was, a document line applies its update to the
      dictionary built so far. */
  lemma {:induction false} ReplayAppendsLine(met: map<Id, bool>, repl: map<Id, Id>, cond: Doc -> bool,
                                             evs: seq<Event>, ev: Event)
    ensures ev.LastSeq? ==> Replay(met, repl, cond, evs + [ev]) == Replay(met, repl, cond, evs)
    ensures ev.Change? ==> Replay(met, repl, cond, evs + [ev]) == Update(Replay(met, repl, cond, evs), repl, cond, ev.id, ev.doc)
  {
    assert (evs + [ev])[..|evs|] == evs;
  }

  /** `o` is how consuming `feed` from the seeded dictionary `seed` ends: it
      stops right after the first event that makes the aggregate hold, and
      otherwise reads the whole feed. */
  predicate Listened(seed: map<Id, bool>, repl: map<Id, Id>, cond: Doc -> bool, agg: Aggregator,
                     start: nat, feed: seq<Event>, o: Outcome)
  {
    match o
    case Satisfied(met, cursor, n) =>
      && n <= |feed|
      && (n > 0 ==> feed[n - 1].Change?)
      && met == Replay(seed, repl, cond, feed[..n])
      && cursor == Cursor(start, feed[..n])
      && Aggregate(agg, met)
      && forall j :: 0 <= j < n ==> !Aggregate(agg, Replay(seed, repl, cond, feed[..j]))
    case Listening(met, cursor) =>
      && met == Replay(seed, repl, cond, feed)
      && cursor == Cursor(start, feed)
      && forall j :: 0 <= j <= |feed| ==> !Aggregate(agg, Replay(seed, repl, cond, feed[..j]))
    case _ => false
  }

  /** The streaming loop of `wait`, entered only when the seeded dictionary
      does not yet satisfy the aggregate. */
  method ConsumeFeed(seed: map<Id, bool>, repl: map<Id, Id>, cond: Doc -> bool, agg: Aggregator,
                     start: nat, feed: seq<Event>) returns (o: Outcome)
    requires !Aggregate(agg, seed)
    ensures Listened(seed, repl, cond, agg, start, feed, o)
    ensures o.Satisfied? ==> o.consumed > 0
  {
    var met := seed;
    var cursor := start;
    for i := 0 to |feed|
      invariant met == Replay(seed, repl, cond, feed[..i])
      invariant cursor == Cursor(start, feed[..i])
      invariant forall j :: 0 <= j <= i ==> !Aggregate(agg, Replay(seed, repl, cond, feed[..j]))
    {
      assert feed[..i + 1][..i] == feed[..i];
      match feed[i]
      case LastSeq(last) =>
        cursor := last;
      case Change(s, id, doc) =>
        cursor := s;
        met := ProcessChange(met, repl, cond, id, doc);
        if Aggregate(agg, met) {
          return Satisfied(met, cursor, i + 1);
        }
    }
    assert feed[..|feed|] == feed;
    return Listening(met, cursor);
  }

  /** A seed that already satisfies the aggregate ends the wait before any
      event is read. */
  lemma ListenedAtSeed(seed: map<Id, bool>, repl: map<Id, Id>, cond: Doc -> bool, agg: Aggregator,
                       start: nat, feed: seq<Event>)
    requires Aggregate(agg, seed)
    ensures Listened(seed, repl, cond, agg, start, feed, Satisfied(seed, start, 0))
  {
    assert feed[..0] == [];
  }

  /** Consuming the feed never adds or drops a tracked id. */
  lemma ListenedKeepsKeys(seed: map<Id, bool>, repl: map<Id, Id>, cond: Doc -> bool, agg: Aggregator,
                          start: nat, feed: seq<Event>, o: Outcome)
    requires Listened(seed, repl, cond, agg, start, feed, o)
    ensures o.Satisfied? || o.Listening?
    ensures o.met.Keys == seed.Keys
  {
  }

  /** Events whose id is neither tracked nor a replacement target never change
      the dictionary, so they never change whether the aggregate holds. */
  lemma {:induction false} ReplayIgnoresUnrelated(met: map<Id, bool>, repl: map<Id, Id>, cond: Doc -> bool, evs: seq<Event>)
    requires forall i :: 0 <= i < |evs| && evs[i].Change? ==> evs[i].id !in met && evs[i].id !in repl.Values
    ensures Replay(met, repl, cond, evs) == met
    decreases |evs|
  {
    if evs != [] {
      ReplayIgnoresUnrelated(met, repl, cond, evs[..|evs| - 1]);
    }
  }

  /** Whether an entry has been written by one of the first `n` events: a
      document line under the entry's own id. */
  predicate Reported(evs: seq<Event>, n: nat, k: Id)
    requires n <= |evs|
  {
    exists i :: 0 <= i < n && evs[i].Change? && evs[i].id == k
  }

  /** When every posted document satisfies the condition, an entry reported
      by the first `n` events is true afterwards, and so is an entry that
      was true before. */
  lemma {:induction false} ReplayReportedTrue(met: map<Id, bool>, repl: map<Id, Id>, cond: Doc -> bool, evs: seq<Event>, n: nat)
    requires n <= |evs|
    requires forall i :: 0 <= i < |evs| && evs[i].Change? ==> cond(evs[i].doc)
    ensures forall k :: k in met && (met[k] || Reported(evs, n, k)) ==> Replay(met, repl, cond, evs[..n])[k]
    decreases n
  {
    if n > 0 {
      ReplayReportedTrue(met, repl, cond, evs, n - 1);
      assert evs[..n][..n - 1] == evs[..n - 1];
      var before := Replay(met, repl, cond, evs[..n - 1]);
      forall k | k in met && (met[k] || Reported(evs, n, k))
        ensures Replay(met, repl, cond, evs[..n])[k]
      {
        if !(met[k] || Reported(evs, n - 1, k)) {
          var i :| 0 <= i < n && evs[i].Change? && evs[i].id == k;
          assert i == n - 1;
        }
      }
    }
  }

  /** Barrier property: if every posted document satisfies the condition and
      every tracked id has posted at least once, the `all` aggregate holds at
      the end of the feed, whatever order the updates arrived in. */
  lemma AllReportedSatisfies(seed: map<Id, bool>, repl: map<Id, Id>, cond: Doc -> bool, feed: seq<Event>)
    requires forall i :: 0 <= i < |feed| && feed[i].Change? ==> cond(feed[i].doc)
    requires forall k :: k in seed ==> Reported(feed, |feed|, k)
    ensures Aggregate(All, Replay(seed, repl, cond, feed))
  {
    ReplayReportedTrue(seed, repl, cond, feed, |feed|);
    assert feed[..|feed|] == feed;
  }

  /** Hence consuming such a feed always ends satisfied, never listening. */
  lemma AllReportedEndsSatisfied(seed: map<Id, bool>, repl: map<Id, Id>, cond: Doc -> bool,
                                 start: nat, feed: seq<Event>, o: Outcome)
    requires forall i :: 0 <= i < |feed| && feed[i].Change? ==> cond(feed[i].doc)
    requires forall k :: k in seed ==> Reported(feed, |feed|, k)
    requires Listened(seed, repl, cond, All, start, feed, o)
    ensures o.Satisfied?
  {
    AllReportedSatisfies(seed, repl, cond, feed);
    assert feed[..|feed|] == feed;
  }

  /** Line 305 as written: iterating the dictionary yields its keys, and each
      key string is unpacked into two names. A key that is not exactly two
      characters long raises; a two-character key is split into a one-letter
      "source" and a one-letter "target". */
  function RedirectAsWritten(met: map<Id, bool>, repl: map<Id, Id>, target: Id, v: bool): (r: Result<map<Id, bool>, Error>)
    ensures (exists k :: k in repl && |k| != 2) ==> r == Err(UnpackMismatch)
  {
    if exists k :: k in repl && |k| != 2 then Err(UnpackMismatch)
    else
      var pairs := set k | k in repl && |k| == 2 :: (k[..1], k[1..]);
      Ok(map k | k in met :: if (k, target) in pairs then v else met[k])
  }

  /** The loop at line 305 as written never propagates an update to a
      replaced client with an ordinary id: for the replacement {old: new}
      and an update of "new", the intended loop sets the entry of "old",
      the written one raises. */
  lemma RedirectAsWrittenRaises()
    ensures RedirectAsWritten(map["old" := false], map["old" := "new"], "new", true) == Err(UnpackMismatch)
    ensures Redirect(map["old" := false], map["old" := "new"], "new", true) == map["old" := true]
  {
    assert "old" in map["old" := "new"] && |"old"| != 2;
  }
}

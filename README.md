# psynteract client synchronisation, modelled in Dafny

This project models the client side of psynteract. psynteract coordinates
experiment clients through a shared CouchDB database. Each client owns one
document and learns about its partners only through the store.

The model covers the `Connection` object of `psynteract/__init__.py` and the
`indirect_lookup` helper:

- **Replacement resolution** (`replacement.dfy`, module `Replacement`).
  `indirect_lookup` follows a chain of id substitutions with at most ten
  lookups. The `replacements` property flattens the session's `replace` map,
  so that every key points straight at its chain end.
- **Condition tracking in `wait`** (`conditions.dfy`, module `Conditions`).
  This covers:
  - the dictionary from tracked id to "condition met" and how it is seeded;
  - what each line of the continuous changes feed does to it;
  - the resume cursor;
  - the `all`/`any` aggregate that ends the wait.
- **The connection** (`client.dfy`, module `Client`). The class `Connection`
  has the source's fields: offline flag, replacement flag, group size,
  number of groupings, role list, session id, the grouping cursor
  `currentGrouping`, and the client document. On it are `push`'s `_id`/`_rev`
  bookkeeping, the `_id`/`_rev` properties, `get`, `current_partners`,
  `get_role`, `current_partner_roles`, `reassign_grouping`, `replacements`
  and `wait`.
- **Shared types** (`types.dfy`, module `Types`). Ids, documents, and one
  error constructor per exception the client raises.

How the store becomes inputs:

- A document is a map from field name to string.
- The session document becomes a `Session` record: the `groupings` list, the
  `roles` list and the `replace` map.
- The client documents of the session become a map from id to document.
- A lookup by id goes to a map from id to document (`store`).
- The update sequence read before seeding becomes a number.
- The changes feed becomes a finite sequence of `Event`s. An event is either
  `Change(seq, id, doc)` or `LastSeq(n)`.
- The update handler's answer to `push` becomes a `Response`: the two
  response headers, or a rejection.
- The predicate passed to `wait` becomes a function `Doc -> bool`. The
  aggregation function is `All` or `Any`. `all` over no values holds and
  `any` over no values does not.

Choices and departures:

- An exception is an `Err` value of a `Result`, so every error path is part
  of the model. For example, `indirect_lookup` on a key that is absent raises
  a `KeyError`. The model returns `Err(MissingKey)` for it.
- Python's `%` (which rounds the quotient down) is modelled by `PyMod`.
  List indexing, where a negative index counts from the end, is modelled by
  `PyIndex`. Both matter for the grouping cursor.
- The `check is 'session'` and `check is 'partners'` tests (lines 233 and
  255) compare by identity. The model reads them as equality, through the
  `Scope` datatype.
- When `wait` consumes the whole finite feed without the aggregate holding,
  it ends in `Listening` with the dictionary and the cursor. In the source,
  the `while True` loop would reopen the feed from that cursor and keep
  listening. Only a feed that the server closes normally is reopened this
  way. A broken connection or a read time-out raises out of the line
  iterator (line 285) and ends `wait` with an exception. The model does not
  include that path (see "Left out").
- In the partners scope, `current_partners` is evaluated only when the seeded
  dictionary is not empty. The comprehension at lines 256-257 never looks at
  it otherwise, so no error can come from it then.
- Offline, `get_role` returns the *second* configured role, `roles[1]`
  (line 361). The comment at lines 376-377 speaks of the first role. The
  model follows the code.
- `current_role` is `GetRole(s, None)`.
- Seeding and streaming are separate methods: `Connection.Seed` and
  `Conditions.ConsumeFeed`. `wait` in the source is one function that does
  both.

## Model

| member | source | states |
|---|---|---|
| `Replacement.Resolve` | psynteract/__init__.py:33-42 | A successful lookup starts at a key and returns an id that is not a key. The missing-key error happens exactly when a lookup is allowed and the start is not a key. Every other failure is the circular-replacements error. |
| `Replacement.IndirectLookup` | psynteract/__init__.py:23-42 | The bounded loop that reassigns the current id returns or raises exactly what `Resolve` says. |
| `Replacement.ResolveCircular` | psynteract/__init__.py:34-42 | The circular-replacements error is raised exactly when the chain is still inside the key set after `max_iterations` lookups, or when no lookup is allowed. |
| `Replacement.ResolveFollowsChain` | psynteract/__init__.py:33-39 | A returned id is reached from the start by following the map, in at least one and at most `max_iterations` lookups. |
| `Replacement.ResolveChainEnd` | psynteract/__init__.py:34-39 | A chain that leaves the key set within the bound resolves to the id where it leaves. |
| `Replacement.CycleStaysInKeys` | psynteract/__init__.py:34-37 | A chain that comes back to its start stays inside the key set for any number of lookups. |
| `Replacement.ResolveCycle` | psynteract/__init__.py:41-42 | A cyclic chain raises the circular-replacements error for every bound. The lookup never loops unboundedly and never returns a value. |
| `Replacement.ChainExample` | psynteract/__init__.py:33-39 | `{a: b, b: c}` from `a` gives `c`. |
| `Replacement.CycleExample` | psynteract/__init__.py:41-42 | `{a: b, b: a}` from `a` raises the circular-replacements error. |
| `Replacement.Flatten` | psynteract/__init__.py:418-419 | On success, the result has exactly the keys of `replace`, each mapped to the end of its chain, and no value is a key. On failure, some key's chain is circular. |
| `Replacement.FlatResolve` | psynteract/__init__.py:33-39 | In a flattened map, one lookup reaches the chain end. |
| `Replacement.FlattenIdempotent` | psynteract/__init__.py:419 | Flattening a flattened map gives the same map back. |
| `Conditions.Aggregate` | psynteract/__init__.py:259 | `all` holds iff no tracked value is false. `any` holds iff some value is true. With nothing tracked, `all` holds and `any` does not. |
| `Conditions.SeedClients` | psynteract/__init__.py:238-252 | The seeded dictionary has one entry per client document. It fails with a missing key exactly when some replaced id's replacement is not a client document of the session. |
| `Conditions.SeedFromClients` | psynteract/__init__.py:242-252 | The seeding loop, which uses `indirect_lookup` for replaced ids, produces exactly `SeedClients`. |
| `Conditions.FilterPartners` | psynteract/__init__.py:255-257 | The partners filter keeps exactly the entries whose id is a current partner, with their values. |
| `Conditions.Redirect` | psynteract/__init__.py:302-309 | Propagating an update of `target` sets exactly the tracked entries whose replacement is `target` to the new value. Every other entry keeps its value, and the key set is unchanged. |
| `Conditions.RedirectInPlace` | psynteract/__init__.py:305-309 | The loop over the replacement items sets every tracked entry whose replacement is the updated id. It leaves all other entries as they were. |
| `Conditions.Update` | psynteract/__init__.py:298-309 | A tracked id overwrites only its own entry. An id that is neither tracked nor a replacement target changes nothing. Otherwise exactly the entries replaced by that id take the new value. The key set never changes. |
| `Conditions.ProcessChange` | psynteract/__init__.py:296-309 | Handling a document line updates the dictionary exactly as `Update` says. |
| `Conditions.Replay` | psynteract/__init__.py:285-321 | Any sequence of feed lines keeps the tracked key set. |
| `Conditions.ReplayAppendsLine` | psynteract/__init__.py:288-325 | Appending a `last_seq` marker leaves the dictionary unchanged. Appending a document line applies its update to the dictionary built from the lines before it. The cursor is tied to each line's number by `ConsumeFeed`'s loop invariant. |
| `Conditions.ConsumeFeed` | psynteract/__init__.py:267-325 | The streaming loop stops right after the first document line that makes the aggregate hold, and returns that line's dictionary and cursor. If the aggregate never holds, it reads the whole feed and reports that. |
| `Conditions.ListenedAtSeed` | psynteract/__init__.py:259-262 | A seed that already satisfies the aggregate ends the wait with no line read. |
| `Conditions.ListenedKeepsKeys` | psynteract/__init__.py:298-321 | However the feed is consumed, the final dictionary tracks exactly the seeded ids. |
| `Conditions.ReplayIgnoresUnrelated` | psynteract/__init__.py:296-309 | Lines whose id is neither tracked nor a replacement target leave the dictionary unchanged. |
| `Conditions.ReplayReportedTrue` | psynteract/__init__.py:298-309 | When every posted document satisfies the condition, any entry written so far, or true already, is true. |
| `Conditions.AllReportedSatisfies` | psynteract/__init__.py:318-321 | If every posted document satisfies the condition and every tracked id has posted at least once, `all` holds at the end, whatever the arrival order. |
| `Conditions.AllReportedEndsSatisfied` | psynteract/__init__.py:318-321 | In that situation, consuming the feed always ends satisfied. |
| `Conditions.RedirectAsWritten` | psynteract/__init__.py:305-309 | The loop at line 305 as written raises a ValueError whenever some replaced id is not exactly two characters long. |
| `Conditions.RedirectAsWrittenRaises` | psynteract/__init__.py:305 | For the replacement `{old: new}` and an update of `new`, the written loop raises. The intended loop sets the entry of `old`. |
| `Client.PyMod` | psynteract/__init__.py:404 | Python's modulo. It raises on zero. For a positive divisor, the result lies in `[0, divisor)` and equals the remainder. For a negative divisor, it lies in `(divisor, 0]`. |
| `Client.LatestSession` | psynteract/__init__.py:105-116 | With no open session this fails with `NoOpenSession`. Otherwise it gives the newest open session. |
| `Client.Connection.constructor` | psynteract/__init__.py:45-103 | The client document holds the session, the group, the type `client`, and the name if one is given. Offline, the id is `offline` and the session is `offline`. The grouping cursor starts at 0. |
| `Client.Connection.DocId` | psynteract/__init__.py:170-175 | `_id` is None exactly when the document has no id. |
| `Client.Connection.DocRev` | psynteract/__init__.py:177-182 | `_rev` is None exactly when the document has no revision. |
| `Client.Connection.Push` | psynteract/__init__.py:118-158 | Offline, nothing changes. If the save is rejected, the document is unchanged and the call fails. If the save succeeds, the id is taken from the response only when none was set, the revision is always replaced, and no other field changes. |
| `Client.Connection.Replacements` | psynteract/__init__.py:408-421 | Offline or with replacements disabled, the result is `{}`. Otherwise, on success, it has exactly the keys of `replace`, each mapped to its full chain resolution, and no value is a key. A failure means some chain is circular. |
| `Client.Connection.Get` | psynteract/__init__.py:184-203 | Offline, `get` never fails. It returns the dict dummy, or an element of a non-empty dummy list, or the client's own document. Online without replacement checking, it fetches the id itself. With replacement checking and replacements disabled, it also fetches the id itself (line 412 gives `{}`). A circular `replace` map raises the circular-replacements error (lines 188 and 419). `GetFollowsChain` states the redirect. |
| `Client.GetFollowsChain` | psynteract/__init__.py:186-194 | `get`'s single redirect through the flattened replacements fetches the end of the whole replacement chain. An id that was not replaced is fetched as is. |
| `Client.Connection.CurrentPartners` | psynteract/__init__.py:339-348 | Offline, the result is the client's own id `group_size - 1` times. Online, a circular `replace` map raises the circular-replacements error, because the session is read through `get` (lines 188 and 419). Otherwise the result is the client's partner list in the current grouping, where a negative cursor counts from the end as in Python, and the call fails exactly when the client's id is absent from it. An out-of-range cursor raises IndexError. |
| `Client.OfflinePairsWithSelf` | psynteract/__init__.py:341-342 | Offline with a group of two, the only partner is the client itself. |
| `Client.Connection.GetRole` | psynteract/__init__.py:350-365 | With no roles, the result is None. Offline, it is `roles[1]`, and it raises when there are fewer than two roles. Online, a circular `replace` map raises the circular-replacements error. Otherwise the result is the player's role (by default the client's own) in `roles[current_grouping]`, where a negative cursor counts from the end. It raises KeyError exactly when the player is absent from that map. An out-of-range cursor raises IndexError. |
| `Client.Connection.RolesOf` | psynteract/__init__.py:386-389 | Each player maps to its `get_role` result. The first lookup that raises aborts with that player's error. |
| `Client.Connection.CurrentPartnerRoles` | psynteract/__init__.py:371-389 | The corrected property: its keys are exactly the current partners, each mapped to its role. When the partners are known, it succeeds exactly when every partner's role lookup succeeds. A failure of `current_partners` is passed through. |
| `Client.Connection.CurrentPartnerRolesAsWritten` | psynteract/__init__.py:371-389 | As written: offline it always raises a TypeError. Online, with at least one partner, it raises a NameError. |
| `Client.PartnerRolesAsWrittenRaises` | psynteract/__init__.py:378-381 | Offline with a group of two and at least two roles, the written property raises. The corrected one gives `{offline: roles[1]}`. |
| `Client.Connection.ReassignGrouping` | psynteract/__init__.py:391-406 | Offline, the cursor does not move. Online, it moves to `old + 1`. With rollover it moves to `(old + 1) % groupings`, which lies in `[0, groupings)` when `groupings > 0`. A zero modulus leaves `old + 1` and raises. Nothing else changes, and the new partners are returned. |
| `Client.RolloverExample` | psynteract/__init__.py:403-404 | With three groupings, Python's modulo takes 2 + 1 to 0 and 0 + 1 to 1. These are the values that `ReassignGrouping`'s rollover clause (`PyMod(old + 1, groupings) == Ok(new)`) gives the cursor. |
| `Client.Connection.Tracked` | psynteract/__init__.py:227-257 | Session scope tracks exactly the session document. Clients scope tracks every client document. Partners scope tracks exactly the client documents whose id is a current partner. Every entry is the condition applied to the document of the id's replacement, or to its own document if it was not replaced. Seeding fails exactly when one of three steps raises: flattening the replacements, seeding from the clients, or, in the partners scope with at least one client, `current_partners`. |
| `Client.Connection.Seed` | psynteract/__init__.py:209-257 | Reading the replacements and then seeding produces exactly `Tracked`, errors included. |
| `Client.TrackedFollowsChain` | psynteract/__init__.py:243-252 | With replacements in use, an unreplaced id's entry is the condition on its own document. A replaced id's entry is the condition on the document at the end of its full replacement chain. |
| `Client.Connection.Wait` | psynteract/__init__.py:205-325 | Offline, it returns without evaluating anything. A seeding error is passed through. Otherwise it consumes the feed from the seeded dictionary as `ConsumeFeed` says. A seed that already satisfies the aggregate returns without reading the feed. The final dictionary tracks exactly the seeded ids. |

## Left out

- Network and store I/O are not modelled. These are the `pycouchdb` calls,
  the HTTP PUT to the update handler, the continuous `_changes` request with
  its line splitting, JSON decoding, heartbeat and timeout, and the server's
  filter on session and document type (`check_type`, line 216). Their
  results are parameters.
- A timed-out or failed feed request, or a connection that breaks while
  streaming, is not modelled. In the source it raises out of the request or
  out of `iter_lines` (line 285), and `wait` ends with an exception. In the
  model the finite feed only ever ends in `Listening`.
- `refresh` only re-reads the document from the store, so it is left out.
- The `data` property and the nested `data` and `design` parts of the client
  document are left out. A document is a flat map of strings.
- `install` and `setup.py` are left out. They upload a file and describe
  packaging.
- The deprecated `await` wrapper, the no-op `heartbeat` method and the
  offline roles warning `print` are left out.
- The constructor does not end with a push. A push needs the store's
  response, so it is the separate `Push` call.
- `random.choice` in offline `get` is the `pick` parameter. The model
  states only that the result is an element of the dummy list.
- `wait` with a `check` string other than the three scopes is left out.
  Such a call behaves like `clients` except for the server-side filter.
- `current_partners` and `get_role` read the session through `get`, and
  therefore through the replacements. The model raises the
  circular-replacements error there, and otherwise reads the `Session`
  record directly. It does not model the session document itself being
  replaced, or a failure of the store fetch.
- A session document without `replace`, `groupings` or `roles` keys (a
  KeyError in the source) is not modelled. The `Session` record always
  carries them.
- `IndirectLookup`'s bound is a `nat`. A negative `max_iterations` behaves
  like 0 in Python (the error is raised at once), and the model does not
  take negative bounds.
- PyMod: for a negative divisor only the range of the result is stated, not
  its congruence with the dividend. The source divides by the number of
  groupings, which is positive in every design.

## Findings

| source | as written | input that shows it | evidently intended | confidence | as-written member | corrected member |
|---|---|---|---|---|---|---|
| psynteract/__init__.py:305 | `for k, v in replacements:` iterates the dictionary's keys and unpacks each id string into two names | replacements `{old: new}`, tracked `{old: False}`, a change of document `new`: the loop raises ValueError | iterate `replacements.items()`, so that `old` takes `condition(doc)` | not executed | `Conditions.RedirectAsWritten` | `Conditions.RedirectInPlace` |
| psynteract/__init__.py:380 | offline, `self.roles[1,]` indexes the role list with a tuple, and online `get_role(partner)` at line 387 lacks `self.`, so `current_partner_roles` raises offline, and online whenever the client has at least one partner (with no partners it returns `{}`) | offline client, group size 2, roles `[a, b]`: TypeError | each current partner mapped to its `get_role` result | not executed | `Client.Connection.CurrentPartnerRolesAsWritten` | `Client.Connection.CurrentPartnerRoles` |

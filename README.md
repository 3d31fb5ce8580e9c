# Mergington High School activity store: the in-memory collection

This project models the in-memory stand-in for a document collection that the
activity-signup backend uses when no MongoDB server answers. It models the
`MockCollection` class and the start-up routine `init_database` that seeds it.

`MockCollection` keeps a Python dict from `_id` to document, in insertion
order. It re-implements the few collection operations the application calls:

- `count_documents` counts the documents.
- `insert_one` stores a document under its `_id`.
- `find_one` looks a document up by `_id`.
- `find` scans with a small query language: `$in` on
  `schedule_details.days`, `$gte` on `schedule_details.start_time` and `$lte`
  on `schedule_details.end_time`, combined with AND.
- `aggregate` lists the distinct scheduled days, sorted.
- `update_one` applies one of `$set`, `$push` or `$pull`.

`init_database` loads the seed tables of activities and teacher accounts into
each collection that is still empty.

The project has six modules, one per file:

- `PyValues` (`values.dfy`) models the Python values a document holds
  (None, int, str, list, dict). It also models the exceptions the code can let
  escape (KeyError, TypeError, AttributeError, ValueError) and the built-ins the query
  code relies on: `<` on str and on arbitrary values, `in`, `any(...)` and
  `dict.get`.
- `Query` (`query.dfy`) models how `find` evaluates each query item against
  a document, in the source's evaluation order. It also defines the intended
  meaning of a query, independent of that order (`Satisfies`), and proves that
  the two agree on well-typed input.
- `Updates` (`updates.dfy`) models the three update kinds on one document,
  with first-occurrence removal for `$pull`.
- `Collection` (`collection.dfy`) models the storage as a value (`Store`: the
  keys in insertion order plus the dict). It defines the specification
  functions of every operation and holds the `MockCollection` class. The
  class's methods update the `keys` and `storage` fields in place with the
  source's loops, and each is proved against those functions.
- `Seed` (`seed.dfy`) models `init_database` over two collections and their
  seed tables. The seed tables are parameters, and the file also carries two
  sample activities from the catalog.
- `Scenarios` (`scenarios.dfy`) holds worked examples on the sample seed: a
  filtered search and the sorted day listing.

Every Python exception is a `Raised` result. The model keeps the order in
which the source evaluates things, so it raises the same exception the code
would, except where a line under "Left out" says otherwise. Where a loop raises part-way, the state it leaves behind is stated too.

## Model

| member | source | states |
|---|---|---|
| PyValues.StrLt | src/backend/database.py:69-76 | Python's `<` on two str: code point by code point, a proper prefix being smaller |
| PyValues.Less | src/backend/database.py:69-76 | Python's `<` on the operands of a time bound: str and int compare, lists element-wise from their first difference, any other pairing raises TypeError |
| PyValues.Contains | src/backend/database.py:62 | Python's `item in container` on a list, dict, str, or a type that raises TypeError |
| PyValues.AnyOf | src/backend/database.py:62 | `any(t in container for t in ts)`, stopping at the first hit or the first exception |
| PyValues.AnyIn | src/backend/database.py:62 | the same `any` over whatever iterable the `$in` operand is: a list, a str's characters, a dict's keys |
| PyValues.ScheduleField | src/backend/database.py:61-75 | `doc.get("schedule_details", {}).get(field, default)`, AttributeError when `schedule_details` is not a dict |
| PyValues.HasOperator | src/backend/database.py:59-74 | `op in condition`, TypeError for a condition that is not a container |
| PyValues.Operand | src/backend/database.py:60-76 | `condition[op]` after the operator test, TypeError unless the condition is a dict |
| PyValues.StrLtIrreflexive | src/backend/database.py:69 | no time string is less than itself under Python's str `<` |
| PyValues.StrLtTransitive | src/backend/database.py:69 | Python's str `<`, used for the time bounds, is transitive |
| PyValues.StrLtTrichotomy | src/backend/database.py:76 | for two strings exactly one of `a < b`, `a == b`, `b < a` holds |
| PyValues.AnyOfLists | src/backend/database.py:62 | `any(day in doc_days for day in target_days)` over two lists is non-empty intersection and never raises |
| PyValues.CommonPrefix | src/backend/database.py:76 | the first position where two lists differ, which Python's list `<` compares at |
| Query.CondResult | src/backend/database.py:57-78 | whether one query item keeps a document, or the exception it raises, evaluated in the source's order for each of the three paths; any other path keeps the document |
| Query.MatchQuery | src/backend/database.py:55-78 | the loop over a query's items for one document: the first item that rejects ends it with False, the first exception escapes |
| Query.Satisfies | src/backend/database.py:55-78 | the intended meaning of a query: every item holds, independent of order |
| Query.CondResultTyped | src/backend/database.py:57-78 | one well-typed query item evaluates without raising to what it asks: days intersect the targets, start not before the `$gte` bound, end not after the `$lte` bound, defaults "00:00"/"23:59" |
| Query.MatchQueryTyped | src/backend/database.py:55-78 | the per-document loop with its `matches` flag and `break` computes the AND of all items, whatever their order |
| Query.UnrecognisedPathIgnored | src/backend/database.py:56-78 | a query item with any other field path, anywhere in the query, never changes whether a document matches |
| Query.UnrecognisedOperatorIgnored | src/backend/database.py:59-74 | a condition that lacks its own path's operator (`$in` for days, `$gte` for start, `$lte` for end) never excludes a document, whatever other operators it names |
| Query.EmptyTargetsExclude | src/backend/database.py:59-64 | an empty `$in` target list excludes every document whose schedule can be read |
| Query.MissingTimesDefault | src/backend/database.py:65-78 | a document without `schedule_details` runs from "00:00" to "23:59" for the time bounds |
| Updates.RemoveFirst | src/backend/database.py:109-112 | `list.remove(value)` with its ValueError swallowed: the first occurrence goes |
| Updates.SetFields | src/backend/database.py:99-100 | `doc.update(operand)`: a dict merges its fields over the document; an empty iterable changes nothing; other operands raise as listed under Left out |
| Updates.PushedOn | src/backend/database.py:101-105 | the document after appending to each field of a given set, an absent field starting as `[]` |
| Updates.PulledOn | src/backend/database.py:106-112 | the document after removing the first occurrence from each present field of a given set |
| Updates.PushFields | src/backend/database.py:101-105 | the outcome of the whole `$push` loop: AttributeError for a non-dict operand or a present non-list field, otherwise every field pushed |
| Updates.PullFields | src/backend/database.py:106-112 | the outcome of the whole `$pull` loop: AttributeError for a non-dict operand or a present non-list field, otherwise every present field pulled |
| Updates.ApplyUpdate | src/backend/database.py:99-112 | the change `update_one` makes to the found document: the first present of `$set`, `$push`, `$pull` |
| Updates.RemoveFirstAbsent | src/backend/database.py:109-112 | `remove` of a value the list lacks is swallowed and leaves the list as it was |
| Updates.RemoveFirstAt | src/backend/database.py:110 | `remove` deletes only the first occurrence; the elements before and after keep their order |
| Updates.RemoveFirstAfterAppend | src/backend/database.py:105-110 | appending a value the list lacks and removing it gives the list back |
| Updates.SetOverwrites | src/backend/database.py:99-100 | `$set` with a dict sets each named field to the given value and keeps every other field |
| Updates.PushAppends | src/backend/database.py:101-105 | `$push` appends each value at the end of its field's list, an absent field starting as `[]`, and changes no other field |
| Updates.PullRemovesFirst | src/backend/database.py:106-112 | `$pull` removes the first occurrence of each value from present fields, adds no field, and is a no-op for an absent field or value |
| Updates.PushThenPull | src/backend/database.py:101-112 | pushing a value the list lacks and pulling it restores the document (an absent field is left as `[]`) |
| Updates.UpdateKindPrecedence | src/backend/database.py:99-112 | only the first present of `$set`, `$push`, `$pull` is applied; with none of them the document is unchanged |
| Updates.PushedOnStep | src/backend/database.py:102-105 | one more pass of the `$push` loop extends the set of pushed fields by one |
| Updates.PulledOnStep | src/backend/database.py:107-112 | one more pass of the `$pull` loop extends the set of pulled fields by one |
| Collection.Count | src/backend/database.py:30-31 | `len(storage)` |
| Collection.Inserted | src/backend/database.py:33-35 | the storage after `storage[document["_id"]] = document`: KeyError without `_id`, TypeError for an unhashable one, a known key kept in place, a new one appended to the order |
| Collection.Lookup | src/backend/database.py:37-41 | `find_one`: None for an empty query, else `storage.get(query.get("_id"))`, TypeError for an unhashable id |
| Collection.Project | src/backend/database.py:48-49 | a returned document: a copy of the stored one with `_id` set to its key |
| Collection.All | src/backend/database.py:44-51 | the no-query branch of `find`: every stored document projected, in key order |
| Collection.Scan | src/backend/database.py:53-85 | the query branch of `find`: the projected documents `MatchQuery` keeps, in key order, or the first exception |
| Collection.Found | src/backend/database.py:43-85 | `find` as a whole: `All` for an empty query, `Scan` otherwise |
| Collection.Select | src/backend/database.py:53-85 | the intended answer to a query: the projected stored documents that satisfy it, in key order |
| Collection.DayValues | src/backend/database.py:91-92 | what `days.update(schedule_days)` adds for one document, or the exception it raises |
| Collection.DaysOf | src/backend/database.py:89-92 | the `days` set after the loop over all stored documents, or the first exception |
| Collection.IdDocs | src/backend/database.py:94 | `[{"_id": day} for day in sorted_days]` |
| Collection.Updated | src/backend/database.py:96-114 | `update_one` on the storage: TypeError for an unhashable id, count 0 and no change for an unknown id, otherwise the updated document and count 1 |
| Collection.DistinctCard | src/backend/database.py:31 | a key list without repeats has as many members as entries |
| Collection.CountIsKeys | src/backend/database.py:30-31 | `len(storage)` is the number of keys in insertion order |
| Collection.InsertSemantics | src/backend/database.py:33-41 | after an insert, `find_one({"_id": id})` returns the document; a fresh id adds one document at the end, a known id is overwritten in place with the count unchanged, and no other document changes |
| Collection.InsertRejects | src/backend/database.py:33-35 | a document without `_id` raises KeyError, an unhashable `_id` TypeError |
| Collection.AllInOrder | src/backend/database.py:43-51 | with no query every stored document comes back once, in insertion order, with `_id` set to its key |
| Collection.EmptyQueryScansAll | src/backend/database.py:43-85 | the no-query branch returns what the filtered scan would with no conditions |
| Collection.ScanRaisedPrefix | src/backend/database.py:53-85 | an exception in the scan at some document ends the whole `find` with it |
| Collection.ScanSelects | src/backend/database.py:53-85 | on well-typed documents and query, `find` returns exactly the projected documents satisfying every condition, in storage order |
| Collection.SelectExactly | src/backend/database.py:53-85 | a document is in the result iff it is the projection of a stored document satisfying the query |
| Collection.DaysOfRaisedPrefix | src/backend/database.py:89-92 | an exception while collecting the days ends `aggregate` with it |
| Collection.DaysOfTyped | src/backend/database.py:89-92 | on documents whose days are lists of strings, the collected set is exactly the union of their day lists |
| Collection.LtIsLess | src/backend/database.py:69-94 | `sorted` orders days by the same `<` that the time bounds of `find` use |
| Collection.LtIrreflexive | src/backend/database.py:94 | the order `sorted` uses is irreflexive |
| Collection.LtTransitive | src/backend/database.py:94 | the order `sorted` uses is transitive |
| Collection.LtTotal | src/backend/database.py:94 | two distinct strings, or two distinct ints, are ordered one way or the other and never both |
| Collection.InsertSorted | src/backend/database.py:94 | inserting a day into a strictly increasing list keeps it strictly increasing with exactly one more member |
| Collection.IncreasingUnique | src/backend/database.py:94 | two strictly increasing lists with the same members are equal, so the sorted order is unique |
| Collection.SortDays | src/backend/database.py:94 | `sorted(days)` returns each member of the set once, strictly ascending |
| Collection.IdDocsEntries | src/backend/database.py:94 | `[{"_id": day} for day in sorted(days)]` lists every day once, ascending |
| Collection.DayEntriesUnique | src/backend/database.py:87-94 | the `aggregate` answer for a set of days is uniquely determined |
| Collection.UpdateTouchesOnlyTarget | src/backend/database.py:96-114 | `update_one` reports 1 iff the `_id` is stored; an unknown `_id` changes nothing and reports 0; only the target document changes, key order and count stay |
| Collection.UpdateCountsFoundNotChanged | src/backend/database.py:98-113 | the modified count is 1 for a stored `_id` even when nothing changes |
| Collection.PushThenPullRestores | src/backend/database.py:96-114 | `$push` of a new value followed by `$pull` of it restores the store |
| Collection.MockCollection.constructor | src/backend/database.py:27-28 | a new collection starts over an empty dict |
| Collection.MockCollection.CountDocuments | src/backend/database.py:30-31 | returns the number of stored documents whatever the query |
| Collection.MockCollection.InsertOne | src/backend/database.py:33-35 | the new state is the specified insert, or unchanged with the exception raised |
| Collection.MockCollection.FindOne | src/backend/database.py:37-41 | an empty query finds nothing; otherwise the document stored under `query.get("_id")`, if any |
| Collection.MockCollection.Find | src/backend/database.py:43-85 | both loops return exactly the specified scan result, including the first exception raised |
| Collection.MockCollection.Aggregate | src/backend/database.py:87-94 | ignores the pipeline and returns the distinct days as `{"_id": day}` entries, strictly ascending, each once; TypeError when the days cannot be ordered |
| Collection.MockCollection.UpdateOne | src/backend/database.py:96-114 | the new state and count are the specified update; on an exception only the target document changed, by a partial `$push`/`$pull` |
| Collection.MockCollection.PushEach | src/backend/database.py:101-105 | the `$push` loop leaves the specified document, or AttributeError with some fields pushed |
| Collection.MockCollection.PullEach | src/backend/database.py:106-112 | the `$pull` loop leaves the specified document, or AttributeError with some fields pulled |
| Seed.ActivityEntry | src/backend/database.py:131 | the activity document `{"_id": name, **details}` |
| Seed.TeacherEntry | src/backend/database.py:136 | the teacher document `{"_id": teacher["username"], **teacher}`, KeyError without a username |
| Seed.Loaded | src/backend/database.py:130-136 | the store after the insert loop over the seed entries, and the exception that stopped it, with the earlier inserts kept |
| Seed.SeedIfEmpty | src/backend/database.py:129-136 | the loop runs only when the count is 0 |
| Seed.Seeded | src/backend/database.py:125-136 | both collections after `init_database`: activities first, teachers skipped once the activities raised |
| Seed.LoadedGrows | src/backend/database.py:129-136 | a completed seeding loop keeps the store well formed, never loses a document and leaves at least one when it had entries |
| Seed.LoadedStops | src/backend/database.py:130-136 | the first exception in the seeding loop ends it, with the earlier inserts kept |
| Seed.SeedTwiceIsOnce | src/backend/database.py:125-136 | a second `init_database` after a successful one changes neither collection, so both counts stay |
| Seed.Load | src/backend/database.py:130-136 | the insert loop over one collection reaches exactly the specified state and exception |
| Seed.InitDatabase | src/backend/database.py:125-136 | each collection is seeded only when its count is 0, activities first; an exception from the activities stops before the teachers |
| Seed.IdPrepended | src/backend/database.py:131 | `{"_id": name, **details}` is the details with `_id` added when they have none |
| Seed.LoadedFresh | src/backend/database.py:130-131 | one seeding step with a fresh `_id` appends it to the key order |
| Seed.SampleActivitiesLoad | src/backend/database.py:140-282 | seeding the sample activities, the catalog's first and last entries (lines 140-150 and 272-282), stores each under its name, in seed order, with `_id` added |
| Seed.SampleTeacherLoad | src/backend/database.py:134-136 | a teacher record is stored under its username with `_id` added |
| Seed.SampleSeedLoads | src/backend/database.py:125-136 | seeding two empty collections with the sample yields exactly the expected two stores and no exception |
| Scenarios.FridayAfternoonFindsChess | src/backend/database.py:53-85 | `$in ["Friday"]` AND `$gte "12:00"` returns only Chess Club: Manga Maniacs passes the time bound but not the day |
| Scenarios.SampleDays | src/backend/database.py:89-92 | the sample's days are Monday, Friday and Tuesday |
| Scenarios.SampleDistinctDays | src/backend/database.py:87-94 | the sample's days listed as Friday, Monday, Tuesday meet the `aggregate` contract (str order, not week order) |
| Scenarios.SampleListingUnique | src/backend/database.py:87-94 | any listing meeting that contract is exactly Friday, Monday, Tuesday |
| Scenarios.SampleStartup | src/backend/database.py:116-136 | two fresh collections seeded with the sample hold exactly the expected documents: the two activities, and the teacher record under its username with `_id` added and its password hash kept |
| Scenarios.SampleSearch | src/backend/database.py:43-85 | the Friday-afternoon search on the seeded collection returns only Chess Club |
| Scenarios.SampleListing | src/backend/database.py:87-94 | `aggregate` on the seeded collection returns Friday, Monday, Tuesday |
| Scenarios.SampleSession | src/backend/database.py:116-136 | start-up followed by the search and the listing gives those two answers |

## Left out

- The MongoDB connection probe, the choice between pymongo and the in-memory backend, and the status lines it prints (src/backend/database.py:9-20, 116-117): network I/O and console output. The model starts from an in-memory `MockCollection`.
- The pymongo collection objects (src/backend/database.py:13-15): a foreign library.
- `hash_password` (src/backend/database.py:120-123): an Argon2 call. A teacher's password field is an opaque string passed in.
- The literal seed catalog (src/backend/database.py:139-304): `InitDatabase` takes the seed tables as parameters. Only two sample activities (Chess Club and Manga Maniacs) and one teacher record are written out for the worked examples. The full catalog covers all seven weekdays, and `aggregate` would list them in str order (Friday, Monday, Saturday, Sunday, Thursday, Tuesday, Wednesday). That is not proved for the full catalog.
- Aliasing: `find_one` returns the stored dict itself and `insert_one` stores the caller's dict. Documents are values here, so a later change through one of those references is not modelled.
- The `modified_count` result object (src/backend/database.py:113-114) is modelled as the integer it carries.
- Booleans and floats as document values: the application's documents hold none.
- The order of a document's own fields, and so the iteration order of a `$push`/`$pull` operand. The loops choose fields in any order, and their contracts hold for every order.
- `find(None)` is modelled as `find` with the empty query, which the source treats the same.
- `find`'s query is a list of (path, condition) items in dict order. `find_one`'s query and `update_one`'s query and update are dicts; a query or update that is not a dict is not modelled.
- Updates.SetFields: `dict.update` with a non-empty list operand is modelled as TypeError. Python accepts a list of key/value pairs there and raises ValueError or TypeError item by item otherwise, but the application never passes one. A non-empty str operand raises ValueError, as in Python.
- Collection.Sortable: `sorted` is modelled as succeeding exactly when every two distinct days are both str or both int. The exact set of comparisons Timsort makes is not modelled. A sort that finishes has ordered every pair, and a mix of kinds or a None always meets a comparison that raises.

/** `init_database`: fills the activities and the teachers collections
    from their seed tables, each only when it is empty. */
module Seed {
  import opened PyValues
  import opened Collection

  /** `{"_id": name, **details}`: the details win if they carry an `_id`. */
  function ActivityEntry(name: string, details: Document): Result<Document> {
    Ok(map["_id" := Str(name)] + details)
  }

  /** `{"_id": teacher["username"], **teacher}`: KeyError without a
      username. */
  function TeacherEntry(teacher: Document): Result<Document> {
    if "username" !in teacher then Raised(KeyError)
    else Ok(map["_id" := teacher["username"]] + teacher)
  }

  function ActivityEntries(seed: seq<(string, Document)>): seq<Result<Document>> {
    seq(|seed|, i requires 0 <= i < |seed| => ActivityEntry(seed[i].0, seed[i].1))
  }

  function TeacherEntries(seed: seq<Document>): seq<Result<Document>> {
    seq(|seed|, i requires 0 <= i < |seed| => TeacherEntry(seed[i]))
  }

  /** The store after the insert loop over `entries`, and the exception
      that stopped it, if any; the documents inserted before the exception
      stay. */
  function Loaded(s: Store, entries: seq<Result<Document>>): (Store, Option<PyError>)
    decreases |entries|
  {
    if entries == [] then (s, None)
    else
      var (s1, err) := Loaded(s, entries[..|entries| - 1]);
      if err.Some? then (s1, err)
      else match entries[|entries| - 1]
        case Raised(e) => (s1, Some(e))
        case Ok(doc) =>
          match Inserted(s1, doc)
          case Raised(e) => (s1, Some(e))
          case Ok(s2) => (s2, None)
  }

  /** The insert loop runs only on an empty collection. */
  function SeedIfEmpty(s: Store, entries: seq<Result<Document>>): (Store, Option<PyError>) {
    if Count(s) == 0 then Loaded(s, entries) else (s, None)
  }

  /** Both collections after `init_database`, and the exception it raised,
      if any: the teachers are not looked at once the activities raised. */
  function Seeded(activities: Store, teachers: Store, activitySeed: seq<(string, Document)>,
                  teacherSeed: seq<Document>): (Store, Store, Option<PyError>)
  {
    var (a, errA) := SeedIfEmpty(activities, ActivityEntries(activitySeed));
    if errA.Some? then (a, teachers, errA)
    else
      var (t, errT) := SeedIfEmpty(teachers, TeacherEntries(teacherSeed));
      (a, t, errT)
  }

  /** A completed load keeps the store well formed, never loses a
      document, and leaves at least one document when it inserted any. */
  lemma {:induction false} LoadedGrows(s: Store, entries: seq<Result<Document>>)
    requires s.Valid()
    ensures Loaded(s, entries).0.Valid()
    ensures Count(Loaded(s, entries).0) >= Count(s)
    ensures Loaded(s, entries).1.None? && entries != [] ==> Count(Loaded(s, entries).0) > 0
    decreases |entries|
  {
    if entries != [] {
      var init := entries[..|entries| - 1];
      LoadedGrows(s, init);
      var s1 := Loaded(s, init).0;
      if Loaded(s, init).1.None? && entries[|entries| - 1].Ok? {
        var doc := entries[|entries| - 1].value;
        if "_id" in doc && Hashable(doc["_id"]) {
          InsertSemantics(s1, doc);
        }
      }
    }
  }

  /** Seeding twice in a row changes nothing the second time, so both
      counts stay as the first call left them. */
  lemma SeedTwiceIsOnce(activities: Store, teachers: Store, activitySeed: seq<(string, Document)>,
                        teacherSeed: seq<Document>)
    requires activities.Valid() && teachers.Valid()
    requires Seeded(activities, teachers, activitySeed, teacherSeed).2.None?
    ensures var (a, t, _) := Seeded(activities, teachers, activitySeed, teacherSeed);
      Seeded(a, t, activitySeed, teacherSeed) == (a, t, None)
  {
    var aEntries := ActivityEntries(activitySeed);
    var tEntries := TeacherEntries(teacherSeed);
    LoadedGrows(activities, aEntries);
    LoadedGrows(teachers, tEntries);
    var (a, t, _) := Seeded(activities, teachers, activitySeed, teacherSeed);
    if Count(a) == 0 {
      assert aEntries == [];
    }
    if Count(t) == 0 {
      assert tEntries == [];
    }
  }

  /** The insert loop of `init_database` over one collection: each entry
      is built, then inserted, and the first exception ends the loop. */
  method Load(c: MockCollection, entries: seq<Result<Document>>) returns (err: Option<PyError>)
    requires c.Valid()
    modifies c
    ensures c.Valid()
    ensures (c.Contents(), err) == Loaded(old(c.Contents()), entries)
  {
    var i := 0;
    while i < |entries|
      invariant 0 <= i <= |entries|
      invariant c.Valid()
      invariant Loaded(old(c.Contents()), entries[..i]) == (c.Contents(), None)
    {
      assert entries[..i + 1][..i] == entries[..i];
      match entries[i]
      case Raised(e) =>
        LoadedStops(old(c.Contents()), entries, i + 1);
        return Some(e);
      case Ok(doc) =>
        var result := c.InsertOne(doc);
        if result.Raised? {
          LoadedStops(old(c.Contents()), entries, i + 1);
          return Some(result.error);
        }
      i := i + 1;
    }
    assert entries[..i] == entries;
    err := None;
  }

  /** `init_database()` over the two collections and their seed tables. */
  method InitDatabase(activities: MockCollection, teachers: MockCollection,
                      activitySeed: seq<(string, Document)>, teacherSeed: seq<Document>)
    returns (r: Result<()>)
    requires activities != teachers && activities.Valid() && teachers.Valid()
    modifies activities, teachers
    ensures activities.Valid() && teachers.Valid()
    ensures var (a, t, err) := Seeded(old(activities.Contents()), old(teachers.Contents()),
                                       activitySeed, teacherSeed);
      && activities.Contents() == a
      && teachers.Contents() == t
      && (err.None? <==> r.Ok?)
      && (err.Some? ==> r == Raised(err.value))
  {
    var n := activities.CountDocuments(map[]);
    if n == 0 {
      var err := Load(activities, ActivityEntries(activitySeed));
      if err.Some? {
        return Raised(err.value);
      }
    }
    n := teachers.CountDocuments(map[]);
    if n == 0 {
      var err := Load(teachers, TeacherEntries(teacherSeed));
      if err.Some? {
        return Raised(err.value);
      }
    }
    r := Ok(());
  }

  /** Once a prefix of the load stopped on an exception, the whole load
      stops there too. */
  lemma {:induction false} LoadedStops(s: Store, entries: seq<Result<Document>>, i: nat)
    requires i <= |entries|
    requires Loaded(s, entries[..i]).1.Some?
    ensures Loaded(s, entries) == Loaded(s, entries[..i])
    decreases |entries| - i
  {
    if i < |entries| {
      assert entries[..i + 1][..i] == entries[..i];
      LoadedStops(s, entries, i + 1);
    } else {
      assert entries[..i] == entries;
    }
  }

  // ---------------------------------------------------------------------
  // A sample of the application's seed tables

  function ScheduleDetails(days: seq<Value>, start: string, end: string): Value {
    Obj(map["days" := List(days), "start_time" := Str(start), "end_time" := Str(end)])
  }

  const ChessClub: Document := map[
    "description" := Str("Learn strategies and compete in chess tournaments"),
    "schedule" := Str("Mondays and Fridays, 3:15 PM - 4:45 PM"),
    "schedule_details" := ScheduleDetails([Str("Monday"), Str("Friday")], "15:15", "16:45"),
    "max_participants" := Int(12),
    "participants" := List([Str("michael@mergington.edu"), Str("daniel@mergington.edu")])]

  const MangaManiacs: Document := map[
    "description" := Str("Explore the fantastic stories of the most interesting characters from Japanese Manga (graphic novels)."),
    "schedule" := Str("Tuesdays, 7:00 PM - 8:30 PM"),
    "schedule_details" := ScheduleDetails([Str("Tuesday")], "19:00", "20:30"),
    "max_participants" := Int(15),
    "participants" := List([])]

  const SampleActivities: seq<(string, Document)> :=
    [("Chess Club", ChessClub), ("Manga Maniacs", MangaManiacs)]

  /** A teacher record; `password` stands for the hash of the account's
      password, which is opaque here. */
  function Teacher(username: string, displayName: string, password: string, role: string): Document {
    map["username" := Str(username), "display_name" := Str(displayName),
        "password" := Str(password), "role" := Str(role)]
  }

  /** Putting `_id` first and then the fields of a document without one
      is the same as adding `_id` to it. */
  lemma IdPrepended(doc: Document, id: Value)
    requires "_id" !in doc
    ensures map["_id" := id] + doc == doc["_id" := id]
  {
  }

  /** One step of a load that inserts a fresh `_id`. */
  lemma LoadedFresh(s: Store, entries: seq<Result<Document>>, s1: Store, doc: Document)
    requires entries != [] && Loaded(s, entries[..|entries| - 1]) == (s1, None)
    requires entries[|entries| - 1] == Ok(doc)
    requires "_id" in doc && Hashable(doc["_id"]) && doc["_id"] !in s1.docs
    ensures Loaded(s, entries) == (Store(s1.keys + [doc["_id"]], s1.docs[doc["_id"] := doc]), None)
  {
  }

  /** The sample activities go in under their names, in seed order. */
  lemma SampleActivitiesLoad()
    ensures Loaded(Store([], map[]), ActivityEntries(SampleActivities)) ==
      (Store([Str("Chess Club"), Str("Manga Maniacs")],
             map[Str("Chess Club") := ChessClub["_id" := Str("Chess Club")],
                 Str("Manga Maniacs") := MangaManiacs["_id" := Str("Manga Maniacs")]]), None)
  {
    var empty := Store([], map[]);
    var entries := ActivityEntries(SampleActivities);
    var chess := ChessClub["_id" := Str("Chess Club")];
    var manga := MangaManiacs["_id" := Str("Manga Maniacs")];
    assert entries[0] == Ok(chess) by {
      IdPrepended(ChessClub, Str("Chess Club"));
    }
    assert entries[1] == Ok(manga) by {
      IdPrepended(MangaManiacs, Str("Manga Maniacs"));
    }
    var s1 := Store([Str("Chess Club")], map[Str("Chess Club") := chess]);
    assert Loaded(empty, entries[..1]) == (s1, None) by {
      assert entries[..1][..0] == [] && entries[..1][0] == entries[0];
      LoadedFresh(empty, entries[..1], empty, chess);
      assert empty.keys + [Str("Chess Club")] == [Str("Chess Club")];
    }
    assert entries[..|entries| - 1] == entries[..1];
    LoadedFresh(empty, entries, s1, manga);
    assert s1.keys + [Str("Manga Maniacs")] == [Str("Chess Club"), Str("Manga Maniacs")];
    assert s1.docs[Str("Manga Maniacs") := manga] ==
      map[Str("Chess Club") := chess, Str("Manga Maniacs") := manga];
  }

  /** A teacher goes in under its username. */
  lemma SampleTeacherLoad(teacher: Document)
    requires "username" in teacher && "_id" !in teacher && Hashable(teacher["username"])
    ensures var id := teacher["username"];
      Loaded(Store([], map[]), TeacherEntries([teacher])) ==
        (Store([id], map[id := teacher["_id" := id]]), None)
  {
    var empty := Store([], map[]);
    var id := teacher["username"];
    var tEntries := TeacherEntries([teacher]);
    var record := teacher["_id" := id];
    assert tEntries[0] == Ok(record) by {
      IdPrepended(teacher, id);
    }
    assert tEntries[..|tEntries| - 1] == [];
    LoadedFresh(empty, tEntries, empty, record);
    assert empty.keys + [id] == [id];
  }

  /** Seeding two empty collections from the sample stores each seed entry
      under its name or username, in seed order, with `_id` added. */
  lemma SampleSeedLoads(hashed: string)
    ensures var teacher := Teacher("mrodriguez", "Ms. Rodriguez", hashed, "teacher");
      Seeded(Store([], map[]), Store([], map[]), SampleActivities, [teacher]) ==
        (Store([Str("Chess Club"), Str("Manga Maniacs")],
               map[Str("Chess Club") := ChessClub["_id" := Str("Chess Club")],
                   Str("Manga Maniacs") := MangaManiacs["_id" := Str("Manga Maniacs")]]),
         Store([Str("mrodriguez")], map[Str("mrodriguez") := teacher["_id" := Str("mrodriguez")]]),
         None)
  {
    var empty := Store([], map[]);
    var teacher := Teacher("mrodriguez", "Ms. Rodriguez", hashed, "teacher");
    var aEntries := ActivityEntries(SampleActivities);
    var tEntries := TeacherEntries([teacher]);
    assert Count(empty) == 0;
    SampleActivitiesLoad();
    SampleTeacherLoad(teacher);
    assert SeedIfEmpty(empty, aEntries) == Loaded(empty, aEntries);
    assert SeedIfEmpty(empty, tEntries) == Loaded(empty, tEntries);
  }
}

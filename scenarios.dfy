/** Worked scenarios on the sample seed: a filtered `find` and the
    distinct-days aggregation over the two sample activities. */
module Scenarios {
  import opened PyValues
  import opened Query
  import opened Collection
  import opened Seed

  /** The activities collection right after seeding it with the sample. */
  function SampleStore(): Store {
    Store([Str("Chess Club"), Str("Manga Maniacs")],
          map[Str("Chess Club") := ChessClub["_id" := Str("Chess Club")],
              Str("Manga Maniacs") := MangaManiacs["_id" := Str("Manga Maniacs")]])
  }

  /** Activities on a Friday that start at noon or later. */
  const FridayAfternoon: Query := [
    (DaysPath, Obj(map["$in" := List([Str("Friday")])])),
    (StartPath, Obj(map["$gte" := Str("12:00")]))]

  /** Both conditions must hold: Manga Maniacs starts late enough but not
      on a Friday, so only Chess Club comes back. */
  lemma FridayAfternoonFindsChess()
    ensures Found(SampleStore(), FridayAfternoon) == Ok([ChessClub["_id" := Str("Chess Club")]])
  {
    var s := SampleStore();
    var chess := s.docs[Str("Chess Club")];
    var manga := s.docs[Str("Manga Maniacs")];
    assert chess["_id" := Str("Chess Club")] == chess;
    assert MatchQuery(chess, FridayAfternoon) == Ok(true) by {
      assert ScheduleField(chess, "days", List([])) == Ok(List([Str("Monday"), Str("Friday")]));
      AnyOfLists([Str("Friday")], [Str("Monday"), Str("Friday")]);
      assert CondResult(chess, DaysPath, FridayAfternoon[0].1) == Ok(true);
      assert !StrLt("15:15", "12:00");
      assert CondResult(chess, StartPath, FridayAfternoon[1].1) == Ok(true);
      assert FridayAfternoon[1..][0] == FridayAfternoon[1] && FridayAfternoon[1..][1..] == [];
      assert MatchQuery(chess, FridayAfternoon[1..]) == Ok(true);
    }
    assert MatchQuery(manga, FridayAfternoon) == Ok(false) by {
      assert ScheduleField(manga, "days", List([])) == Ok(List([Str("Tuesday")]));
      AnyOfLists([Str("Friday")], [Str("Tuesday")]);
      assert CondResult(manga, DaysPath, FridayAfternoon[0].1) == Ok(false);
    }
    assert s.keys[..1][..0] == [] && s.keys[..|s.keys| - 1] == s.keys[..1];
    assert s.keys[..1][0] == Str("Chess Club");
    assert Project(Str("Chess Club"), chess) == chess;
    assert [] + [chess] == [chess];
    assert Scan(s.keys[..1], s.docs, FridayAfternoon) == Ok([chess]);
  }

  /** The days of the sample, gathered over the stored documents. */
  lemma SampleDays()
    ensures DaysOf(SampleStore().keys, SampleStore().docs) ==
      Ok({Str("Monday"), Str("Friday"), Str("Tuesday")})
  {
    var s := SampleStore();
    assert DayValues(s.docs[Str("Chess Club")]) == Ok({Str("Monday"), Str("Friday")}) by {
      var xs := [Str("Monday"), Str("Friday")];
      assert ScheduleField(s.docs[Str("Chess Club")], "days", List([])) == Ok(List(xs));
      assert (set x | x in xs) == {Str("Monday"), Str("Friday")};
    }
    assert DayValues(s.docs[Str("Manga Maniacs")]) == Ok({Str("Tuesday")}) by {
      var xs := [Str("Tuesday")];
      assert ScheduleField(s.docs[Str("Manga Maniacs")], "days", List([])) == Ok(List(xs));
      assert (set x | x in xs) == {Str("Tuesday")};
    }
    var first := s.keys[..1];
    assert |first| == 1 && first[..0] == [] && first[0] == Str("Chess Club");
    assert DaysOf(first[..0], s.docs) == Ok({});
    assert {} + {Str("Monday"), Str("Friday")} == {Str("Monday"), Str("Friday")};
    assert DaysOf(first, s.docs) == Ok({Str("Monday"), Str("Friday")});
    assert s.keys[..|s.keys| - 1] == first && s.keys[1] == Str("Manga Maniacs");
    assert {Str("Monday"), Str("Friday")} + {Str("Tuesday")} == {Str("Monday"), Str("Friday"), Str("Tuesday")};
  }

  /** `aggregate` on the sample lists Friday, Monday, Tuesday, each once:
      Python's string order, not the order of the week. */
  lemma SampleDistinctDays()
    ensures DaysOf(SampleStore().keys, SampleStore().docs).Ok?
    ensures DayEntries(IdDocs([Str("Friday"), Str("Monday"), Str("Tuesday")]),
                       DaysOf(SampleStore().keys, SampleStore().docs).value)
  {
    SampleDays();
    var sorted := [Str("Friday"), Str("Monday"), Str("Tuesday")];
    assert StrLt("Friday", "Monday") && StrLt("Monday", "Tuesday") && StrLt("Friday", "Tuesday");
    assert Increasing(sorted);
    IdDocsEntries(sorted, {Str("Monday"), Str("Friday"), Str("Tuesday")});
  }

  /** Start-up on the fallback backend: two fresh collections seeded with
      the sample. */
  method SampleStartup(hashed: string) returns (activities: MockCollection, teachers: MockCollection)
    ensures fresh(activities) && fresh(teachers)
    ensures activities.Valid() && activities.Contents() == SampleStore()
    ensures teachers.Valid()
    ensures var teacher := Teacher("mrodriguez", "Ms. Rodriguez", hashed, "teacher");
      teachers.Contents() ==
        Store([Str("mrodriguez")], map[Str("mrodriguez") := teacher["_id" := Str("mrodriguez")]])
  {
    activities := new MockCollection();
    teachers := new MockCollection();
    var teacher := Teacher("mrodriguez", "Ms. Rodriguez", hashed, "teacher");
    var r := InitDatabase(activities, teachers, SampleActivities, [teacher]);
    SampleSeedLoads(hashed);
  }

  /** The Friday-afternoon search on the seeded sample. */
  method SampleSearch(activities: MockCollection) returns (found: Result<seq<Document>>)
    requires activities.Valid() && activities.Contents() == SampleStore()
    ensures found == Ok([ChessClub["_id" := Str("Chess Club")]])
  {
    found := activities.Find(FridayAfternoon);
    FridayAfternoonFindsChess();
  }

  /** Whatever lists the sample's days as `aggregate` promises is the
      Friday, Monday, Tuesday listing. */
  lemma SampleListingUnique(r: seq<Document>)
    requires DayEntries(r, {Str("Monday"), Str("Friday"), Str("Tuesday")})
    ensures r == IdDocs([Str("Friday"), Str("Monday"), Str("Tuesday")])
  {
    SampleDays();
    SampleDistinctDays();
    DayEntriesUnique(r, IdDocs([Str("Friday"), Str("Monday"), Str("Tuesday")]),
                     {Str("Monday"), Str("Friday"), Str("Tuesday")});
  }

  /** The days listing on the seeded sample. */
  method SampleListing(activities: MockCollection) returns (days: Result<seq<Document>>)
    requires activities.Valid() && activities.Contents() == SampleStore()
    ensures days == Ok(IdDocs([Str("Friday"), Str("Monday"), Str("Tuesday")]))
  {
    ghost var set3 := {Str("Monday"), Str("Friday"), Str("Tuesday")};
    SampleDays();
    assert DaysOf(activities.keys, activities.storage) == Ok(set3);
    assert Sortable(set3);
    days := activities.Aggregate([]);
    SampleListingUnique(days.value);
  }

  /** Start-up with the sample seed, then the search and the listing. */
  method SampleSession(hashed: string) returns (found: Result<seq<Document>>, days: Result<seq<Document>>)
    ensures found == Ok([ChessClub["_id" := Str("Chess Club")]])
    ensures days == Ok(IdDocs([Str("Friday"), Str("Monday"), Str("Tuesday")]))
  {
    var activities, teachers := SampleStartup(hashed);
    found := SampleSearch(activities);
    days := SampleListing(activities);
  }
}

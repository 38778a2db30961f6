/**
 * The SQLite database `data.db`: a `settings` table of key/value text pairs
 * and a `users` table keyed by `user_id`. Each table is a map; connections,
 * cursors and commits are not modelled.
 */
module Store {
  import opened Wrappers

  const CARD_NUMBER_KEY := "card_number"
  const RECIPIENT_FIO_KEY := "recipient_fio"
  const DEFAULT_CARD_NUMBER := "0000 0000 0000 0000"
  const DEFAULT_RECIPIENT_FIO := "Ф.И.О. Получателя"

  /** The platform's account of whoever sent an update; the optional fields may be missing. */
  datatype Account = Account(id: int, username: Option<string>, firstName: Option<string>, lastName: Option<string>)

  /** One row of `users` without its key. */
  datatype UserRow = UserRow(username: string, firstName: string, lastName: string, registeredAt: string)

  /** Python's `value or ''` on an optional text. */
  function OrEmpty(o: Option<string>): string {
    match o
    case Some(s) => s
    case None => ""
  }

  /** The row `db_add_user` writes; `now` stands for `datetime.utcnow().isoformat()`. */
  function RowOf(u: Account, now: string): (r: UserRow)
    ensures r.username == (if u.username.Some? then u.username.value else "")
    ensures r.firstName == (if u.firstName.Some? then u.firstName.value else "")
    ensures r.lastName == (if u.lastName.Some? then u.lastName.value else "")
    ensures r.registeredAt == now
  {
    UserRow(OrEmpty(u.username), OrEmpty(u.firstName), OrEmpty(u.lastName), now)
  }

  /**
   * `settings` after `init_db`'s two `INSERT OR IGNORE` statements: the two
   * payment keys get their placeholders only where they are missing.
   */
  function Seeded(settings: map<string, string>): (r: map<string, string>)
    ensures r.Keys == settings.Keys + {CARD_NUMBER_KEY, RECIPIENT_FIO_KEY}
    ensures forall k :: k in settings ==> r[k] == settings[k]
    ensures CARD_NUMBER_KEY !in settings ==> r[CARD_NUMBER_KEY] == DEFAULT_CARD_NUMBER
    ensures RECIPIENT_FIO_KEY !in settings ==> r[RECIPIENT_FIO_KEY] == DEFAULT_RECIPIENT_FIO
  {
    var withCard :=
      if CARD_NUMBER_KEY in settings then settings
      else settings[CARD_NUMBER_KEY := DEFAULT_CARD_NUMBER];
    if RECIPIENT_FIO_KEY in withCard then withCard
    else withCard[RECIPIENT_FIO_KEY := DEFAULT_RECIPIENT_FIO]
  }

  /** Running `init_db` again, as every restart does, changes nothing more. */
  lemma SeededIdempotent(settings: map<string, string>)
    ensures Seeded(Seeded(settings)) == Seeded(settings)
  {
  }

  /** A non-empty set has a member. */
  lemma SomeMember(s: set<int>)
    requires s != {}
    ensures exists y :: y in s
  {
    if forall y :: y !in s {
      assert false;
    }
  }

  /** The least element of a non-empty set of ids. */
  ghost function MinOf(s: set<int>): (m: int)
    requires s != {}
    ensures m in s && forall x :: x in s ==> m <= x
  {
    SomeMember(s);
    var x :| x in s;
    if s == {x} then x
    else
      var rest := MinOf(s - {x});
      assert forall y :: y in s ==> y == x || y in s - {x};
      if x < rest then x else rest
  }

  /**
   * The ids of a set in ascending order: the order in which SQLite's scan of
   * a table keyed by an `INTEGER PRIMARY KEY` returns its rows.
   */
  ghost function AscendingIds(s: set<int>): seq<int>
    decreases |s|
  {
    if s == {} then []
    else
      var m := MinOf(s);
      [m] + AscendingIds(s - {m})
  }

  /** `AscendingIds` lists every id of the set and nothing else, once each, in increasing order. */
  lemma {:induction false} AscendingIdsSorted(s: set<int>)
    ensures |AscendingIds(s)| == |s|
    ensures forall i, j :: 0 <= i < j < |AscendingIds(s)| ==> AscendingIds(s)[i] < AscendingIds(s)[j]
    ensures forall x :: x in AscendingIds(s) <==> x in s
    decreases |s|
  {
    if s != {} {
      var m := MinOf(s);
      var rest := AscendingIds(s - {m});
      AscendingIdsSorted(s - {m});
      assert forall x :: x in rest ==> m < x;
      assert AscendingIds(s) == [m] + rest;
    }
  }

  /** Ascending order starts with the least id. */
  lemma AscendingIdsStep(s: set<int>)
    requires s != {}
    ensures AscendingIds(s) == [MinOf(s)] + AscendingIds(s - {MinOf(s)})
  {
  }

  /** An id occurs at most once in a strictly increasing sequence. */
  lemma {:induction false} OccursOnce(ids: seq<int>, x: int)
    requires forall i, j :: 0 <= i < j < |ids| ==> ids[i] < ids[j]
    requires x in ids
    ensures multiset(ids)[x] == 1
  {
    assert ids == [ids[0]] + ids[1..];
    if ids[0] == x {
      assert x !in ids[1..];
    } else {
      OccursOnce(ids[1..], x);
    }
  }

  /**
   * `REPLACE` keyed on `user_id`: registering adds the sender's id if it was
   * new and otherwise keeps the number of rows, and the sender's row holds
   * the latest names, a missing one stored as "".
   */
  lemma RegistrationKeepsOneRowPerId(users: map<int, UserRow>, u: Account, now: string)
    ensures users[u.id := RowOf(u, now)].Keys == users.Keys + {u.id}
    ensures u.id in users ==> |users[u.id := RowOf(u, now)].Keys| == |users.Keys|
    ensures u.id !in users ==> |users[u.id := RowOf(u, now)].Keys| == |users.Keys| + 1
    ensures users[u.id := RowOf(u, now)][u.id].username == (if u.username.Some? then u.username.value else "")
    ensures users[u.id := RowOf(u, now)][u.id].firstName == (if u.firstName.Some? then u.firstName.value else "")
    ensures users[u.id := RowOf(u, now)][u.id].lastName == (if u.lastName.Some? then u.lastName.value else "")
  {
    var after := users[u.id := RowOf(u, now)];
    if u.id in users {
      assert after.Keys == users.Keys;
    } else {
      assert after.Keys == users.Keys + {u.id};
      assert u.id !in users.Keys;
    }
  }

  /**
   * However often a user registered, the id list `db_get_all_user_ids`
   * returns holds that user exactly once.
   */
  lemma RegisteredIdListedOnce(users: map<int, UserRow>, id: int)
    requires id in users
    ensures multiset(AscendingIds(users.Keys))[id] == 1
  {
    AscendingIdsSorted(users.Keys);
    OccursOnce(AscendingIds(users.Keys), id);
  }

  class Database {
    var settings: map<string, string>
    var users: map<int, UserRow>

    /** A database file that does not exist yet: both tables empty. */
    constructor ()
      ensures settings == map[] && users == map[]
    {
      settings := map[];
      users := map[];
    }

    /** `init_db`: creates missing tables and seeds the payment keys where they are missing. */
    method InitDb()
      modifies this
      ensures settings == Seeded(old(settings))
      ensures users == old(users)
    {
      if CARD_NUMBER_KEY !in settings {
        settings := settings[CARD_NUMBER_KEY := DEFAULT_CARD_NUMBER];
      }
      if RECIPIENT_FIO_KEY !in settings {
        settings := settings[RECIPIENT_FIO_KEY := DEFAULT_RECIPIENT_FIO];
      }
    }

    /** `db_get_setting`: the stored value, or the empty text when the key has no row. */
    function GetSetting(key: string): (value: string)
      reads this
      ensures key in settings ==> value == settings[key]
      ensures key !in settings ==> value == ""
    {
      if key in settings then settings[key] else ""
    }

    /** `db_set_setting`: `REPLACE INTO settings`, overwriting the key's row or adding it. */
    method SetSetting(key: string, value: string)
      modifies this
      ensures settings == old(settings)[key := value]
      ensures users == old(users)
      ensures GetSetting(key) == value
      ensures forall k :: k != key ==> GetSetting(k) == old(GetSetting(k))
    {
      settings := settings[key := value];
    }

    /**
     * `db_add_user`: `REPLACE INTO users`, so the id keeps one row whose
     * names and timestamp are the latest ones.
     */
    method AddUser(u: Account, now: string)
      modifies this
      ensures users == old(users)[u.id := RowOf(u, now)]
      ensures settings == old(settings)
    {
      users := users[u.id := RowOf(u, now)];
    }

    /** `db_get_all_user_ids`: every registered id, once each, in ascending order. */
    method AllUserIds() returns (ids: seq<int>)
      ensures ids == AscendingIds(users.Keys)
    {
      ids := [];
      var rows := users.Keys;
      while rows != {}
        invariant ids + AscendingIds(rows) == AscendingIds(users.Keys)
        decreases |rows|
      {
        ghost var least := MinOf(rows);
        var uid :| uid in rows && forall x :: x in rows ==> uid <= x;
        assert uid == least;
        AscendingIdsStep(rows);
        ids, rows := ids + [uid], rows - {uid};
      }
    }
  }
}

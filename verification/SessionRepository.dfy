/** The session table as an object: inserts, unguarded updates and deletes in place, against the
    statements of `Tables`. */
module SessionRepository {
  import opened Wrappers
  import opened Domain
  import opened Tables

  datatype RepositoryError = Refused | Unreadable | Unavailable

  class SqliteSessionRepository {
    var rows: map<string, SessionRow>

    ghost function View(): Store
      reads this
    {
      Store(rows, map[])
    }

    constructor ()
      ensures View() == Store(map[], map[])
    {
      rows := map[];
    }

    /** A statement the database does not carry out changes nothing. */
    method Create(s: Session) returns (r: Result<Session, RepositoryError>)
      modifies this
      ensures r.Ok? ==> r.value == s && Tables.Create(old(View()), s) == Ok(View())
      ensures r.Err? ==> View() == old(View())
      ensures s.id in old(rows) ==> r.Err?
    {
      if * { return Err(Unavailable); }
      if s.id in rows { return Err(Refused); }
      rows := rows[s.id := RowOf(s)];
      r := Ok(s);
    }

    method Get(id: string) returns (r: Result<Option<Session>, RepositoryError>)
      ensures r == Ok(None) ==> id !in rows
      ensures r.Ok? && r.value.Some? ==> id in rows && SessionOf(id, rows[id]) == r.value
      ensures r == Err(Unreadable) ==> id in rows && SessionOf(id, rows[id]) == None
    {
      if * { return Err(Unavailable); }
      if id !in rows { return Ok(None); }
      var session := SessionOf(id, rows[id]);
      if session.None? { return Err(Unreadable); }
      r := Ok(session);
    }

    method Update(s: Session) returns (r: Result<(), RepositoryError>)
      modifies this
      ensures View() == if r.Ok? then Tables.Update(old(View()), s) else old(View())
    {
      if * { return Err(Unavailable); }
      if s.id in rows {
        var row := rows[s.id];
        row := row.(status := s.state.AsStr(), message := s.message);
        row := row.(requiresInput := s.requiresInput, inputType := s.inputType);
        rows := rows[s.id := row.(updatedAt := Timestamp(s.updatedAt))];
      }
      r := Ok(());
    }

    method Delete(id: string) returns (r: Result<(), RepositoryError>)
      modifies this
      ensures View() == if r.Ok? then Tables.Delete(old(View()), id) else old(View())
    {
      if * { return Err(Unavailable); }
      rows := rows - {id};
      r := Ok(());
    }
  }

  /** An update never brings a deleted row back and touches only the row of its session, never the
      platform or the creation time; what it wrote is what is read afterwards. */
  lemma UpdateKeepsOwner(db: Store, s: Session)
    ensures Update(db, s).sessions.Keys == db.sessions.Keys && Update(db, s).cookies == db.cookies
    ensures forall id | id in db.sessions ::
      && Update(db, s).sessions[id].platform == db.sessions[id].platform
      && Update(db, s).sessions[id].createdAt == db.sessions[id].createdAt
      && (id != s.id ==> Update(db, s).sessions[id] == db.sessions[id])
    ensures s.id in db.sessions && db.sessions[s.id].platform == s.platform ==>
      SessionOf(s.id, Update(db, s).sessions[s.id])
        == Some(s.(createdAt := db.sessions[s.id].createdAt * 1000, updatedAt := Timestamp(s.updatedAt) * 1000))
  {
    assert StateFromStr(s.state.AsStr()) == Some(s.state) by {
      match s.state case Idle => case Loading => case Authenticating => case WaitingForUser =>
      case Connected => case Failed =>
    }
  }
}

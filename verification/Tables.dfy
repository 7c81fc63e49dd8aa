/** The two tables and the statements run on them, as values: `sqlite/session_repo.rs` and the
    effect of `sqlite/cookie_repo.rs` once its encryption is looked through. */
module Tables {
  import opened Wrappers
  import opened Domain

  datatype CookieKey = CookieKey(platform: string, name: string, domain: string)

  /** One cookie row; `expires` is in whole seconds. */
  datatype CookieRow = CookieRow(
    value: string, path: string, expires: Option<int>, httpOnly: bool, secure: bool)

  type Jar = map<CookieKey, CookieRow>

  datatype SessionRow = SessionRow(
    platform: string, status: string, message: Option<string>, requiresInput: bool,
    inputType: Option<string>, createdAt: int, updatedAt: int)

  datatype Store = Store(sessions: map<string, SessionRow>, cookies: Jar)

  // ---------------------------------------------------------------- sessions

  function RowOf(s: Session): SessionRow {
    SessionRow(s.platform, s.state.AsStr(), s.message, s.requiresInput, s.inputType,
               Timestamp(s.createdAt), Timestamp(s.updatedAt))
  }

  /** `None` when the stored status is none of the six known words. */
  function SessionOf(id: string, row: SessionRow): Option<Session> {
    match StateFromStr(row.status)
    case None => None
    case Some(state) =>
      Some(Session(id, row.platform, state, row.message, row.requiresInput, row.inputType,
                   row.createdAt * 1000, row.updatedAt * 1000))
  }

  /** The primary key refuses an id that is already there. */
  function Create(db: Store, s: Session): Result<Store, ()> {
    if s.id in db.sessions then Err(()) else Ok(db.(sessions := db.sessions[s.id := RowOf(s)]))
  }

  function Updated(row: SessionRow, s: Session): SessionRow {
    row.(status := s.state.AsStr(), message := s.message, requiresInput := s.requiresInput,
         inputType := s.inputType, updatedAt := Timestamp(s.updatedAt))
  }

  /** Unguarded: touches the row whatever its status, and nothing when there is no row. */
  function Update(db: Store, s: Session): Store {
    if s.id in db.sessions then db.(sessions := db.sessions[s.id := Updated(db.sessions[s.id], s)])
    else db
  }

  function Delete(db: Store, id: string): Store { db.(sessions := db.sessions - {id}) }

  /** What is written comes back, with instants cut to whole seconds. */
  lemma SessionRoundTrip(db: Store, s: Session)
    requires s.id !in db.sessions
    ensures Create(db, s).Ok? && SessionOf(s.id, Create(db, s).value.sessions[s.id])
              == Some(s.(createdAt := Timestamp(s.createdAt) * 1000,
                         updatedAt := Timestamp(s.updatedAt) * 1000))
  {
    assert StateFromStr(s.state.AsStr()) == Some(s.state) by {
      match s.state case Idle => case Loading => case Authenticating => case WaitingForUser =>
      case Connected => case Failed =>
    }
  }

  // ---------------------------------------------------------------- cookies

  function KeyOf(platform: string, c: Cookie): CookieKey { CookieKey(platform, c.name, c.domain) }

  function CookieRowOf(c: Cookie): CookieRow {
    CookieRow(c.value, c.path,
              if c.expires.Some? then Some(Timestamp(c.expires.value)) else None,
              c.httpOnly, c.secure)
  }

  function CookieOf(key: CookieKey, row: CookieRow): Cookie {
    Cookie(key.name, row.value, key.domain, row.path,
           if row.expires.Some? then Some(row.expires.value * 1000) else None,
           row.httpOnly, row.secure)
  }

  /** Upserts in list order, so the last cookie with a key wins. */
  function SaveCookies(jar: Jar, platform: string, cookies: seq<Cookie>): Jar
    decreases |cookies|
  {
    if cookies == [] then jar
    else
      var last := cookies[|cookies| - 1];
      SaveCookies(jar, platform, cookies[..|cookies| - 1])
        [KeyOf(platform, last) := CookieRowOf(last)]
  }

  const NON_TERMINAL := {"idle", "loading", "authenticating", "waiting_for_user"}

  predicate AcceptsLogin(db: Store, s: Session) {
    && s.id in db.sessions
    && db.sessions[s.id].platform == s.platform
    && db.sessions[s.id].status in NON_TERMINAL
  }

  /** One transaction: the cookies and the guarded status change, or nothing at all. */
  function SaveLogin(db: Store, s: Session, cookies: seq<Cookie>): Result<Store, ()> {
    if !s.state.Connected? || s.requiresInput || s.inputType.Some? then Err(())
    else if !AcceptsLogin(db, s) then Err(())
    else Ok(Store(db.sessions[s.id := Updated(db.sessions[s.id], s)],
                  SaveCookies(db.cookies, s.platform, cookies)))
  }

  predicate IsLast(cookies: seq<Cookie>, i: nat)
    requires i < |cookies|
  {
    forall j | i < j < |cookies| ::
      cookies[j].name != cookies[i].name || cookies[j].domain != cookies[i].domain
  }

  /** Rows of other keys stay as they were. */
  lemma {:induction false} SaveCookiesElsewhere(jar: Jar, platform: string, cookies: seq<Cookie>, key: CookieKey)
    requires forall i | 0 <= i < |cookies| :: KeyOf(platform, cookies[i]) != key
    ensures var after := SaveCookies(jar, platform, cookies);
      (key in after <==> key in jar) && (key in jar ==> after[key] == jar[key])
    decreases |cookies|
  {
    if cookies != [] { SaveCookiesElsewhere(jar, platform, cookies[..|cookies| - 1], key); }
  }

  /** The last cookie with a key is the one stored. */
  lemma {:induction false} SaveCookiesLast(jar: Jar, platform: string, cookies: seq<Cookie>, i: nat)
    requires i < |cookies| && IsLast(cookies, i)
    ensures var key := KeyOf(platform, cookies[i]); var after := SaveCookies(jar, platform, cookies);
      key in after && after[key] == CookieRowOf(cookies[i])
    decreases |cookies|
  {
    var n := |cookies| - 1;
    if i < n {
      var rest := cookies[..n];
      assert forall j | i < j < |rest| :: rest[j] == cookies[j];
      assert KeyOf(platform, cookies[n]) != KeyOf(platform, rest[i]);
      SaveCookiesLast(jar, platform, rest, i);
    }
  }

  /** Last write wins, key by key, and nothing else moves. */
  lemma SaveCookiesRows(jar: Jar, platform: string, cookies: seq<Cookie>, key: CookieKey)
    ensures var after := SaveCookies(jar, platform, cookies);
      && (forall i | 0 <= i < |cookies| && KeyOf(platform, cookies[i]) == key && IsLast(cookies, i) ::
            key in after && after[key] == CookieRowOf(cookies[i]))
      && ((forall i | 0 <= i < |cookies| :: KeyOf(platform, cookies[i]) != key) ==>
            ((key in after <==> key in jar) && (key in jar ==> after[key] == jar[key])))
  {
    var after := SaveCookies(jar, platform, cookies);
    forall i | 0 <= i < |cookies| && KeyOf(platform, cookies[i]) == key && IsLast(cookies, i)
      ensures key in after && after[key] == CookieRowOf(cookies[i])
    {
      SaveCookiesLast(jar, platform, cookies, i);
    }
    if forall i | 0 <= i < |cookies| :: KeyOf(platform, cookies[i]) != key {
      SaveCookiesElsewhere(jar, platform, cookies, key);
    }
  }

  lemma {:induction false} LastOccurrence(platform: string, cookies: seq<Cookie>, key: CookieKey)
    requires exists i :: 0 <= i < |cookies| && KeyOf(platform, cookies[i]) == key
    ensures exists i :: 0 <= i < |cookies| && KeyOf(platform, cookies[i]) == key && IsLast(cookies, i)
    decreases |cookies|
  {
    var n := |cookies| - 1;
    if KeyOf(platform, cookies[n]) == key {
      assert IsLast(cookies, n);
    } else {
      var i :| 0 <= i < |cookies| && KeyOf(platform, cookies[i]) == key;
      assert KeyOf(platform, cookies[..n][i]) == key;
      LastOccurrence(platform, cookies[..n], key);
      var k :| 0 <= k < n && KeyOf(platform, cookies[..n][k]) == key && IsLast(cookies[..n], k);
      assert KeyOf(platform, cookies[k]) == key;
      forall j | k < j < |cookies|
        ensures cookies[j].name != cookies[k].name || cookies[j].domain != cookies[k].domain
      {
        if j < n { assert cookies[..n][j] == cookies[j]; }
      }
    }
  }
}

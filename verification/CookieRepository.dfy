/** `sqlite/cookie_repo.rs`: the cookie table as it is stored, with encrypted values beside
    plaintext ones from before encryption. */
module CookieRepository {
  import opened Wrappers
  import opened Domain
  import opened Tables

  const PREFIX := "enc:v1:"

  datatype StoredRow = StoredRow(
    stored: string, path: string, expires: Option<int>, httpOnly: bool, secure: bool)

  type Table = map<CookieKey, StoredRow>

  /** The encryption service; the number stands for the random nonce.  Either call may fail. */
  datatype Cipher = Cipher(
    encrypt: (string, nat) -> Option<string>,
    decrypt: string -> Option<string>)

  ghost predicate Sound(c: Cipher) {
    forall x, n :: c.encrypt(x, n).Some? ==> c.decrypt(c.encrypt(x, n).value) == Some(x)
  }

  /** The value a reader gets from a stored one; `None` when it cannot be decrypted. */
  function Plain(c: Cipher, stored: string): Option<string> {
    if PREFIX <= stored then c.decrypt(stored[|PREFIX|..]) else Some(stored)
  }

  function Seen(c: Cipher, row: StoredRow): Option<CookieRow> {
    match Plain(c, row.stored)
    case None => None
    case Some(value) => Some(CookieRow(value, row.path, row.expires, row.httpOnly, row.secure))
  }

  /** The table as its readers see it. */
  function View(c: Cipher, table: Table): map<CookieKey, Option<CookieRow>> {
    map k | k in table :: Seen(c, table[k])
  }

  function Encrypted(cookie: Cookie, ciphertext: string): StoredRow {
    StoredRow(PREFIX + ciphertext, cookie.path,
              if cookie.expires.Some? then Some(Timestamp(cookie.expires.value)) else None,
              cookie.httpOnly, cookie.secure)
  }

  /** Saving, as readers see it: later cookies win, unreadable rows are simply replaced. */
  function SaveView(view: map<CookieKey, Option<CookieRow>>, platform: string, cookies: seq<Cookie>)
    : map<CookieKey, Option<CookieRow>>
    decreases |cookies|
  {
    if cookies == [] then view
    else
      var last := cookies[|cookies| - 1];
      SaveView(view, platform, cookies[..|cookies| - 1])
        [KeyOf(platform, last) := Some(CookieRowOf(last))]
  }

  function Whole(jar: Jar): map<CookieKey, Option<CookieRow>> { map k | k in jar :: Some(jar[k]) }

  /** On a table that can be read throughout, saving is saving into the plain map of `Tables`. */
  lemma {:induction false} SaveRefinesPlainMap(jar: Jar, platform: string, cookies: seq<Cookie>)
    ensures SaveView(Whole(jar), platform, cookies) == Whole(SaveCookies(jar, platform, cookies))
    decreases |cookies|
  {
    if cookies != [] {
      SaveRefinesPlainMap(jar, platform, cookies[..|cookies| - 1]);
    }
  }

  lemma EncryptedIsSeen(c: Cipher, cookie: Cookie, nonce: nat)
    requires Sound(c) && c.encrypt(cookie.value, nonce).Some?
    ensures Seen(c, Encrypted(cookie, c.encrypt(cookie.value, nonce).value)) == Some(CookieRowOf(cookie))
  {
    StripPrefix(c.encrypt(cookie.value, nonce).value);
  }

  lemma StripPrefix(ciphertext: string)
    ensures PREFIX <= PREFIX + ciphertext && (PREFIX + ciphertext)[|PREFIX|..] == ciphertext
  {
  }

  /** The migration statement: rewrites the row only if it still holds the plaintext that was read. */
  function Migrated(table: Table, key: CookieKey, plaintext: string, ciphertext: string): Table {
    if key in table && table[key].stored == plaintext
    then table[key := table[key].(stored := PREFIX + ciphertext)] else table
  }

  /** Whatever the table holds by then -- the old plaintext, a newer value, or nothing -- no reader
      can tell that the migration ran. */
  lemma MigrationIsInvisible(c: Cipher, table: Table, key: CookieKey, plaintext: string, nonce: nat)
    requires Sound(c) && !(PREFIX <= plaintext) && c.encrypt(plaintext, nonce).Some?
    ensures View(c, Migrated(table, key, plaintext, c.encrypt(plaintext, nonce).value)) == View(c, table)
  {
    var after := Migrated(table, key, plaintext, c.encrypt(plaintext, nonce).value);
    StripPrefix(c.encrypt(plaintext, nonce).value);
    forall k | k in table ensures Seen(c, after[k]) == Seen(c, table[k]) {
    }
  }

  /** A ciphertext is never shorter than the text it decrypts to (it also holds a nonce and a tag). */
  ghost predicate Lengthens(c: Cipher) {
    forall t :: c.decrypt(t).Some? ==> |c.decrypt(t).value| <= |t|
  }

  /** A plaintext value from before encryption is read back as it was stored exactly when it does not
      begin with the prefix: any other is lost to its readers, whatever the cipher makes of it. */
  lemma LegacyReadsBackExactlyWhen(c: Cipher, value: string)
    requires Lengthens(c)
    ensures Plain(c, value) == Some(value) <==> !(PREFIX <= value)
  {
    if PREFIX <= value { assert |value[|PREFIX|..]| < |value|; }
  }

  /** The table as its writers left it before there was encryption. */
  function AsStored(table: Table): map<CookieKey, Option<CookieRow>> {
    map k | k in table ::
      Some(CookieRow(table[k].stored, table[k].path, table[k].expires, table[k].httpOnly, table[k].secure))
  }

  /** So a table from before encryption keeps its meaning exactly when no value in it begins with the
      prefix; migrating it then changes nothing for its readers either. */
  lemma LegacyTableReadsBackExactlyWhen(c: Cipher, table: Table)
    requires Lengthens(c)
    ensures View(c, table) == AsStored(table) <==> forall k | k in table :: !(PREFIX <= table[k].stored)
  {
    forall k | k in table ensures View(c, table)[k] == AsStored(table)[k] <==> !(PREFIX <= table[k].stored) {
      LegacyReadsBackExactlyWhen(c, table[k].stored);
    }
    if View(c, table) == AsStored(table) {
      assert forall k | k in table :: View(c, table)[k] == AsStored(table)[k];
    }
  }

  predicate Selected(key: CookieKey, platform: string, domains: Option<seq<string>>) {
    key.platform == platform && (domains.None? || key.domain in domains.value)
  }

  /** Every selected row once, in an order the database chooses. */
  ghost predicate IsSelection(order: seq<CookieKey>, table: Table, platform: string, domains: Option<seq<string>>) {
    && (forall i, j | 0 <= i < j < |order| :: order[i] != order[j])
    && (forall k :: k in order <==> k in table && Selected(k, platform, domains))
  }

  /** How one statement goes: the nonce its encryption draws, and whether the database refuses it. */
  datatype Attempt = Attempt(nonce: nat, refused: bool)

  /** The value cannot be encrypted, or the statement that would store it is refused. */
  predicate Fails(c: Cipher, value: string, at: Attempt) { c.encrypt(value, at.nonce).None? || at.refused }

  predicate SomeFails(c: Cipher, cookies: seq<Cookie>, attempts: nat -> Attempt) {
    exists i :: 0 <= i < |cookies| && Fails(c, cookies[i].value, attempts(i))
  }

  ghost predicate IsKeyOfOne(k: CookieKey, platform: string, cookies: seq<Cookie>) {
    exists i :: 0 <= i < |cookies| && k == KeyOf(platform, cookies[i])
  }

  /** Every value written is marked as encrypted, and no other row is touched. */
  ghost predicate Sealed(before: Table, after: Table, platform: string, cookies: seq<Cookie>) {
    && (forall k | IsKeyOfOne(k, platform, cookies) :: k in after && PREFIX <= after[k].stored)
    && (forall k | !IsKeyOfOne(k, platform, cookies) ::
          (k in after <==> k in before) && (k in before ==> after[k] == before[k]))
  }

  lemma SealedOneMore(before: Table, t: Table, platform: string, cookies: seq<Cookie>, i: nat, row: StoredRow)
    requires i < |cookies| && Sealed(before, t, platform, cookies[..i]) && PREFIX <= row.stored
    ensures Sealed(before, t[KeyOf(platform, cookies[i]) := row], platform, cookies[..i + 1])
  {
    var next := cookies[..i + 1];
    forall k ensures IsKeyOfOne(k, platform, next) <==>
                       IsKeyOfOne(k, platform, cookies[..i]) || k == KeyOf(platform, cookies[i])
    {
      if IsKeyOfOne(k, platform, cookies[..i]) {
        var j :| 0 <= j < i && k == KeyOf(platform, cookies[..i][j]);
        assert next[j] == cookies[..i][j];
      }
      assert next[i] == cookies[i];
      if IsKeyOfOne(k, platform, next) {
        var j :| 0 <= j < i + 1 && k == KeyOf(platform, next[j]);
        if j < i { assert next[j] == cookies[..i][j]; }
      }
    }
  }

  ghost predicate SavedUpTo(c: Cipher, before: Table, t: Table, platform: string, cookies: seq<Cookie>, i: nat)
    requires i <= |cookies|
  {
    && View(c, t) == SaveView(View(c, before), platform, cookies[..i])
    && Sealed(before, t, platform, cookies[..i])
  }

  lemma SavedOneMore(c: Cipher, before: Table, t: Table, platform: string, cookies: seq<Cookie>, i: nat, row: StoredRow)
    requires i < |cookies| && SavedUpTo(c, before, t, platform, cookies, i)
    requires PREFIX <= row.stored && Seen(c, row) == Some(CookieRowOf(cookies[i]))
    ensures SavedUpTo(c, before, t[KeyOf(platform, cookies[i]) := row], platform, cookies, i + 1)
  {
    SealedOneMore(before, t, platform, cookies, i, row);
    assert cookies[..i + 1][..i] == cookies[..i];
  }

  /** The row cannot be decrypted, or it is old plaintext and its migration fails. */
  predicate Unreadable(c: Cipher, row: StoredRow, at: Attempt) {
    if PREFIX <= row.stored then Seen(c, row).None? else Fails(c, row.stored, at)
  }

  class SqliteCookieRepository {
    const cipher: Cipher
    var sessions: map<string, SessionRow>
    var table: Table

    constructor (cipher: Cipher)
      ensures this.cipher == cipher && table == map[] && sessions == map[]
    {
      this.cipher := cipher;
      sessions := map[];
      table := map[];
    }

    /** One upsert, on the transaction's copy of the table. */
    method SaveOne(t: Table, platform: string, cookie: Cookie, at: Attempt) returns (r: Result<Table, ()>)
      requires Sound(cipher)
      ensures r.Err? <==> Fails(cipher, cookie.value, at)
      ensures r.Ok? ==> var key := KeyOf(platform, cookie);
        && key in r.value && r.value == t[key := r.value[key]] && PREFIX <= r.value[key].stored
        && Seen(cipher, r.value[key]) == Some(CookieRowOf(cookie))
    {
      var ciphertext := cipher.encrypt(cookie.value, at.nonce);
      if ciphertext.None? || at.refused { return Err(()); }
      EncryptedIsSeen(cipher, cookie, at.nonce);
      return Ok(t[KeyOf(platform, cookie) := Encrypted(cookie, ciphertext.value)]);
    }

    /** The upsert loop.  It gives up at the first value that cannot be encrypted or written, and only
        then. */
    method SaveCookiesInTransaction(tx: Table, platform: string, cookies: seq<Cookie>, attempts: nat -> Attempt)
      returns (r: Result<Table, ()>)
      requires Sound(cipher)
      ensures r.Err? <==> SomeFails(cipher, cookies, attempts)
      ensures r.Ok? ==> View(cipher, r.value) == SaveView(View(cipher, tx), platform, cookies)
      ensures r.Ok? ==> Sealed(tx, r.value, platform, cookies)
    {
      var t := tx;
      for i := 0 to |cookies|
        invariant SavedUpTo(cipher, tx, t, platform, cookies, i)
        invariant forall k: nat | k < i :: !Fails(cipher, cookies[k].value, attempts(k))
      {
        var one := SaveOne(t, platform, cookies[i], attempts(i));
        if one.Err? { return Err(()); }
        SavedOneMore(cipher, tx, t, platform, cookies, i, one.value[KeyOf(platform, cookies[i])]);
        t := one.value;
      }
      assert cookies[..|cookies|] == cookies;
      return Ok(t);
    }

    /** It fails only if a statement does, or if the transaction cannot be opened or committed. */
    method Save(platform: string, cookies: seq<Cookie>, attempts: nat -> Attempt, commits: bool)
      returns (r: Result<(), ()>)
      requires Sound(cipher)
      modifies this`table
      ensures r.Err? <==> cookies != [] && (SomeFails(cipher, cookies, attempts) || !commits)
      ensures View(cipher, table) ==
              if r.Ok? then SaveView(old(View(cipher, table)), platform, cookies)
              else old(View(cipher, table))
      ensures r.Err? ==> table == old(table)
      ensures r.Ok? ==> Sealed(old(table), table, platform, cookies)
    {
      if |cookies| == 0 { return Ok(()); }
      var tx := SaveCookiesInTransaction(table, platform, cookies, attempts);
      if tx.Err? || !commits { return Err(()); }
      table := tx.value;
      return Ok(());
    }

    /** Cookies and session row change together or not at all; `commits` is false as well when the row
        cannot be written. */
    method SaveLogin(session: Session, cookies: seq<Cookie>, attempts: nat -> Attempt, commits: bool)
      returns (r: Result<(), ()>)
      requires Sound(cipher)
      modifies this`table, this`sessions
      ensures r.Err? ==> table == old(table) && sessions == old(sessions)
      ensures r.Ok? ==> View(cipher, table) == SaveView(old(View(cipher, table)), session.platform, cookies)
      ensures r.Ok? ==> Sealed(old(table), table, session.platform, cookies)
      ensures forall jar :: r.Ok? && Whole(jar) == old(View(cipher, table)) ==>
        && View(cipher, table) == Whole(SaveCookies(jar, session.platform, cookies))
        && Tables.SaveLogin(Store(old(sessions), jar), session, cookies)
             == Ok(Store(sessions, SaveCookies(jar, session.platform, cookies)))
      ensures r.Err? <==>
        || !session.state.Connected? || session.requiresInput || session.inputType.Some?
        || SomeFails(cipher, cookies, attempts) || !AcceptsLogin(Store(old(sessions), map[]), session) || !commits
    {
      if !session.state.Connected? || session.requiresInput || session.inputType.Some? {
        return Err(());
      }
      var tx := SaveCookiesInTransaction(table, session.platform, cookies, attempts);
      if tx.Err? { return Err(()); }
      var rowsAffected := 0;
      var txSessions := sessions;
      if session.id in txSessions && txSessions[session.id].platform == session.platform
         && txSessions[session.id].status in NON_TERMINAL {
        txSessions := txSessions[session.id := Updated(txSessions[session.id], session)];
        rowsAffected := 1;
      }
      if rowsAffected != 1 || !commits { return Err(()); }
      table := tx.value;
      sessions := txSessions;
      forall jar | Whole(jar) == old(View(cipher, table))
        ensures View(cipher, table) == Whole(SaveCookies(jar, session.platform, cookies))
      {
        SaveRefinesPlainMap(jar, session.platform, cookies);
      }
      return Ok(());
    }

    method MigratePlaintext(key: CookieKey, plaintext: string, at: Attempt) returns (r: Result<(), ()>)
      requires Sound(cipher) && !(PREFIX <= plaintext)
      modifies this`table
      ensures View(cipher, table) == old(View(cipher, table))
      ensures r.Err? <==> Fails(cipher, plaintext, at)
      ensures r.Ok? ==> !(key in table && table[key].stored == plaintext)
    {
      var ciphertext := cipher.encrypt(plaintext, at.nonce);
      if ciphertext.None? || at.refused { return Err(()); }
      MigrationIsInvisible(cipher, table, key, plaintext, at.nonce);
      StripPrefix(ciphertext.value);
      table := Migrated(table, key, plaintext, ciphertext.value);
      return Ok(());
    }

    /** Stands for any writes of others that land while a reader waits. */
    method OtherWriters()
      modifies this`table
    {
    }

    method CookieFromRow(key: CookieKey, row: StoredRow, at: Attempt) returns (r: Result<Cookie, ()>)
      requires Sound(cipher)
      modifies this`table
      ensures r.Err? <==> Unreadable(cipher, row, at)
      ensures View(cipher, table) == old(View(cipher, table))
      ensures r.Ok? ==> Seen(cipher, row).Some? && r.value == CookieOf(key, Seen(cipher, row).value)
    {
      var value: string;
      if PREFIX <= row.stored {
        var plain := cipher.decrypt(row.stored[|PREFIX|..]);
        if plain.None? { return Err(()); }
        value := plain.value;
      } else {
        var migrated := MigratePlaintext(key, row.stored, at);
        if migrated.Err? { return Err(()); }
        value := row.stored;
      }
      return Ok(Cookie(key.name, value, key.domain, row.path,
                       if row.expires.Some? then Some(row.expires.value * 1000) else None,
                       row.httpOnly, row.secure));
    }

    /** The rows of one SELECT, in no particular order. */
    method SelectRows(platform: string, domains: Option<seq<string>>) returns (order: seq<CookieKey>)
      ensures IsSelection(order, table, platform, domains)
    {
      order := [];
      var todo := set k | k in table && Selected(k, platform, domains);
      while todo != {}
        invariant forall i, j | 0 <= i < j < |order| :: order[i] != order[j]
        invariant forall k :: k in order ==> k !in todo
        invariant forall k :: k in order || k in todo <==> k in table && Selected(k, platform, domains)
        decreases todo
      {
        var k :| k in todo;
        todo := todo - {k};
        order := order + [k];
      }
    }

    /** The rows are decoded one after the other, whatever lands meanwhile. */
    method DecodeRows(keys: seq<CookieKey>, rows: seq<StoredRow>, attempts: nat -> Attempt)
      returns (r: Result<seq<Cookie>, ()>)
      requires Sound(cipher) && |keys| == |rows|
      modifies this`table
      ensures r.Err? <==> exists i: nat :: i < |rows| && Unreadable(cipher, rows[i], attempts(i))
      ensures r.Ok? ==> |r.value| == |rows| && forall i | 0 <= i < |rows| ::
        Seen(cipher, rows[i]).Some? && r.value[i] == CookieOf(keys[i], Seen(cipher, rows[i]).value)
    {
      var cookies := [];
      for i := 0 to |rows|
        invariant |cookies| == i
        invariant forall k: nat | k < i :: !Unreadable(cipher, rows[k], attempts(k))
        invariant forall k | 0 <= k < i ::
          Seen(cipher, rows[k]).Some? && cookies[k] == CookieOf(keys[k], Seen(cipher, rows[k]).value)
      {
        OtherWriters();
        var cookie := CookieFromRow(keys[i], rows[i], attempts(i));
        if cookie.Err? { return Err(()); }
        cookies := cookies + [cookie.value];
      }
      return Ok(cookies);
    }

    /** Reads the table as it was at the SELECT: whatever lands while rows are still being decoded
        and migrated, the cookies returned are those of that moment, each once. */
    method Get(platform: string, domains: Option<seq<string>>, selects: bool, attempts: nat -> Attempt)
      returns (r: Result<seq<Cookie>, ()>, ghost order: seq<CookieKey>)
      requires Sound(cipher)
      modifies this`table
      ensures IsSelection(order, old(table), platform, domains) && forall k | k in order :: k in old(table)
      ensures forall k :: k in order <==>
        k in old(table) && k.platform == platform && (domains.Some? ==> k.domain in domains.value)
      ensures r.Ok? ==>
        && |r.value| == |order|
        && forall i | 0 <= i < |order| ::
             && Seen(cipher, old(table)[order[i]]).Some?
             && r.value[i] == CookieOf(order[i], Seen(cipher, old(table)[order[i]]).value)
      ensures r.Err? <==>
        && domains != Some([])
        && (!selects || exists i: nat :: i < |order| && Unreadable(cipher, old(table)[order[i]], attempts(i)))
    {
      var keys: seq<CookieKey> := [];
      if domains == Some([]) {
        order := [];
        return Ok([]), order;
      }
      keys := SelectRows(platform, domains);
      order := keys;
      if !selects { return Err(()), order; }
      var rows := seq(|keys|, i requires 0 <= i < |keys| && keys[i] in table reads this => table[keys[i]]);
      r := DecodeRows(keys, rows, attempts);
    }
  }
}

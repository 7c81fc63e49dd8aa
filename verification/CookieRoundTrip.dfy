/** What is saved is what is read: a cookie comes back from the encrypted table field by field. */
module CookieRoundTrip {
  import opened Wrappers
  import opened Domain
  import opened Tables
  import opened CookieRepository

  /** The same cookie, but for an expiry that is cut to whole seconds. */
  predicate ReadsAs(got: Cookie, given: Cookie) {
    && got.name == given.name && got.value == given.value
    && got.domain == given.domain && got.path == given.path
    && got.httpOnly == given.httpOnly && got.secure == given.secure
    && match given.expires
       case None => got.expires.None?
       case Some(at) => got.expires.Some? && got.expires.value % 1000 == 0
                        && got.expires.value <= at < got.expires.value + 1000
  }

  /** Wherever the cookie is kept, it reads back as it was given. */
  predicate Holds(view: map<CookieKey, Option<CookieRow>>, platform: string, given: Cookie) {
    var key := CookieKey(platform, given.name, given.domain);
    key in view && view[key].Some? && ReadsAs(CookieOf(key, view[key].value), given)
  }

  lemma {:induction false} SavedReadsBack(view: map<CookieKey, Option<CookieRow>>, platform: string,
                                          cookies: seq<Cookie>, i: nat)
    requires i < |cookies| && IsLast(cookies, i)
    ensures Holds(SaveView(view, platform, cookies), platform, cookies[i])
    decreases |cookies|
  {
    var n := |cookies| - 1;
    if i < n {
      var rest := cookies[..n];
      assert forall j | i < j < |rest| :: rest[j] == cookies[j];
      SavedReadsBack(view, platform, rest, i);
    }
  }

  /** What is in the table is read, once, and what is read is in the table. */
  ghost predicate IsReading(read: seq<Cookie>, c: Cipher, table: Table, platform: string) {
    && (forall k | k in table && k.platform == platform :: Seen(c, table[k]).Some?
          && CookieOf(k, Seen(c, table[k]).value) in read)
    && (forall got | got in read ::
          var k := CookieKey(platform, got.name, got.domain);
          k in table && Seen(c, table[k]).Some? && got == CookieOf(k, Seen(c, table[k]).value))
    && (forall m, n | 0 <= m < n < |read| :: read[m].name != read[n].name || read[m].domain != read[n].domain)
  }

  lemma SelectionIsReading(order: seq<CookieKey>, read: seq<Cookie>, c: Cipher, table: Table, platform: string)
    requires IsSelection(order, table, platform, None) && |read| == |order|
    requires forall i | 0 <= i < |order| ::
      && order[i] in table && Seen(c, table[order[i]]).Some?
      && read[i] == CookieOf(order[i], Seen(c, table[order[i]]).value)
    ensures IsReading(read, c, table, platform)
  {
    forall k | k in table && k.platform == platform
      ensures Seen(c, table[k]).Some? && CookieOf(k, Seen(c, table[k]).value) in read
    {
      assert k in order;
      var i :| 0 <= i < |order| && order[i] == k;
      assert read[i] in read;
    }
    forall i | 0 <= i < |order| ensures order[i] == CookieKey(platform, read[i].name, read[i].domain) {
      assert order[i] in order;
    }
  }

  /** Every cookie that is the last of its name and domain comes back, once, as it was given. */
  ghost predicate AllComeBack(cookies: seq<Cookie>, read: seq<Cookie>) {
    forall i: nat | i < |cookies| && IsLast(cookies, i) ::
      && (exists got :: got in read && ReadsAs(got, cookies[i]))
      && forall got | got in read && got.name == cookies[i].name && got.domain == cookies[i].domain ::
           ReadsAs(got, cookies[i])
  }

  lemma ReadingComesBack(c: Cipher, before: Table, table: Table, platform: string, cookies: seq<Cookie>,
                         read: seq<Cookie>)
    requires View(c, table) == SaveView(View(c, before), platform, cookies)
    requires IsReading(read, c, table, platform)
    ensures AllComeBack(cookies, read)
  {
    forall i: nat | i < |cookies| && IsLast(cookies, i)
      ensures exists got :: got in read && ReadsAs(got, cookies[i])
      ensures forall got | got in read && got.name == cookies[i].name && got.domain == cookies[i].domain ::
        ReadsAs(got, cookies[i])
    {
      SavedReadsBack(View(c, before), platform, cookies, i);
      var k := CookieKey(platform, cookies[i].name, cookies[i].domain);
      assert k in table && View(c, table)[k] == Seen(c, table[k]);
      assert CookieOf(k, Seen(c, table[k]).value) in read;
    }
  }

  /** Saving and then reading the platform's cookies. */
  method SaveThenGet(repo: SqliteCookieRepository, platform: string, cookies: seq<Cookie>,
                     attempts: nat -> Attempt, commits: bool, selects: bool, readings: nat -> Attempt)
    returns (saved: Result<(), ()>, read: Result<seq<Cookie>, ()>)
    requires Sound(repo.cipher)
    modifies repo
    ensures saved.Ok? && read.Ok? ==> AllComeBack(cookies, read.value)
  {
    ghost var before := repo.table;
    saved := repo.Save(platform, cookies, attempts, commits);
    ghost var after := repo.table;
    ghost var order;
    read, order := repo.Get(platform, None, selects, readings);
    if saved.Ok? && read.Ok? {
      SelectionIsReading(order, read.value, repo.cipher, after, platform);
      ReadingComesBack(repo.cipher, before, after, platform, cookies, read.value);
    }
  }

  /** The same for the cookies of a login. */
  method LoginThenGet(repo: SqliteCookieRepository, session: Session, cookies: seq<Cookie>,
                      attempts: nat -> Attempt, commits: bool, selects: bool, readings: nat -> Attempt)
    returns (saved: Result<(), ()>, read: Result<seq<Cookie>, ()>)
    requires Sound(repo.cipher)
    modifies repo
    ensures saved.Ok? && read.Ok? ==> AllComeBack(cookies, read.value)
  {
    ghost var before := repo.table;
    saved := repo.SaveLogin(session, cookies, attempts, commits);
    ghost var after := repo.table;
    ghost var order;
    read, order := repo.Get(session.platform, None, selects, readings);
    if saved.Ok? && read.Ok? {
      SelectionIsReading(order, read.value, repo.cipher, after, session.platform);
      ReadingComesBack(repo.cipher, before, after, session.platform, cookies, read.value);
    }
  }
}

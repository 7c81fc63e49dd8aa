/** `application/cookies.rs`: validating a stored session, and how it agrees with the moment the
    login was classified as connected. */
module Validation {
  import opened Wrappers
  import opened Domain
  import opened Classification
  import opened Tables

  datatype ValidationOutcome = ValidationOutcome(valid: bool, expiresAt: int)

  function Validate(p: Platform, stored: seq<Cookie>, now: int): ValidationOutcome {
    var found := SessionCookie(p, stored, now);
    ValidationOutcome(found.Some?,
      if found.Some? && found.value.expires.Some? then Timestamp(found.value.expires.value) else 0)
  }

  /** What a validation tells: whether the stored cookies make a login, and the second at which the
      first living cookie that stands for it expires, or zero. */
  lemma ValidatesExactly(p: Platform, stored: seq<Cookie>, now: int)
    ensures var r := Validate(p, stored, now); r.valid <==> IsLogin(p, stored, now)
    ensures var r := Validate(p, stored, now);
      if !r.valid then r.expiresAt == 0
      else
        var name := if p.Novelpia? && !HasFilled(p, stored, "AUTOLOGIN", now) then "ISLOGIN" else p.SessionCookieName();
        exists i: nat :: IsFirst(p, stored, name, now, i)
          && match stored[i].expires
             case None => r.expiresAt == 0
             case Some(at) => r.expiresAt * 1000 <= at < (r.expiresAt + 1) * 1000
  {
    SessionCookieExactly(p, stored, now);
  }

  /** A listing of a platform's rows as a query may return them: all of them, in any order. */
  ghost predicate IsListing(listing: seq<Cookie>, jar: Jar, platform: string) {
    && (forall c | c in listing ::
          KeyOf(platform, c) in jar && c == CookieOf(KeyOf(platform, c), jar[KeyOf(platform, c)]))
    && (forall k | k in jar && k.platform == platform :: CookieOf(k, jar[k]) in listing)
  }

  /** The cookie carries the platform's session, is not overwritten by a later one with the same
      name and domain, and is still alive once its expiry is cut to whole seconds. */
  ghost predicate SurvivesStorage(p: Platform, cookies: seq<Cookie>, i: nat, now: int)
    requires i < |cookies|
  {
    && cookies[i].name == p.SessionCookieName()
    && CookieMatchesDomain(p, cookies[i])
    && IsLast(cookies, i)
    && (cookies[i].expires.None? || Timestamp(cookies[i].expires.value) * 1000 > now)
  }

  ghost predicate SomeSurvives(p: Platform, cookies: seq<Cookie>, now: int) {
    exists i: nat :: i < |cookies| && SurvivesStorage(p, cookies, i, now)
  }

  ghost predicate ValidInEveryStore(p: Platform, cookies: seq<Cookie>, now: int) {
    forall jar, listing |
      IsListing(listing, SaveCookies(jar, p.AsStr(), FilterCookies(p, cookies)), p.AsStr()) ::
      Validate(p, listing, now).valid
  }

  lemma {:induction false} ListingExists(jar: Jar, platform: string, keys: set<CookieKey>)
    returns (listing: seq<Cookie>)
    requires keys <= jar.Keys
    ensures forall c | c in listing ::
      KeyOf(platform, c) in jar && c == CookieOf(KeyOf(platform, c), jar[KeyOf(platform, c)])
    ensures forall k | k in keys && k.platform == platform :: CookieOf(k, jar[k]) in listing
    decreases keys
  {
    listing := [];
    if keys != {} {
      var k :| k in keys;
      var rest := ListingExists(jar, platform, keys - {k});
      if k.platform == platform {
        assert KeyOf(platform, CookieOf(k, jar[k])) == k;
        listing := rest + [CookieOf(k, jar[k])];
      } else {
        listing := rest;
      }
    }
  }

  lemma SurvivorIsValid(p: Platform, kept: seq<Cookie>, i: nat, now: int, jar: Jar, listing: seq<Cookie>)
    requires !p.Novelpia? && i < |kept| && SurvivesStorage(p, kept, i, now)
    requires IsListing(listing, SaveCookies(jar, p.AsStr(), kept), p.AsStr())
    ensures Validate(p, listing, now).valid
  {
    var key := KeyOf(p.AsStr(), kept[i]);
    SaveCookiesRows(jar, p.AsStr(), kept, key);
    var after := SaveCookies(jar, p.AsStr(), kept);
    var c := CookieOf(key, after[key]);
    assert c in listing;
    var n :| 0 <= n < |listing| && listing[n] == c;
    assert CookieMatchesDomain(p, c) by { assert c.domain == kept[i].domain; }
    assert IsActive(p, listing[n], p.SessionCookieName(), now);
    ActiveCookieFound(p, listing, p.SessionCookieName(), now);
  }

  lemma ValidNeedsSurvivor(p: Platform, kept: seq<Cookie>, now: int, listing: seq<Cookie>)
    requires !p.Novelpia?
    requires IsListing(listing, SaveCookies(map[], p.AsStr(), kept), p.AsStr())
    requires Validate(p, listing, now).valid
    ensures SomeSurvives(p, kept, now)
  {
    ActiveCookieFound(p, listing, p.SessionCookieName(), now);
    var c := ActiveCookie(p, listing, p.SessionCookieName(), now).value;
    var key := KeyOf(p.AsStr(), c);
    SaveCookiesRows(map[], p.AsStr(), kept, key);
    LastOccurrence(p.AsStr(), kept, key);
    var i :| 0 <= i < |kept| && KeyOf(p.AsStr(), kept[i]) == key && IsLast(kept, i);
    assert CookieMatchesDomain(p, kept[i]) by { assert c.domain == kept[i].domain; }
    assert SurvivesStorage(p, kept, i, now);
  }

  /** For every platform with a single session cookie: storing a login makes validation succeed
      from every previous store exactly when one of its cookies survives storage. */
  lemma ValidExactlyWhenOneSurvives(p: Platform, cookies: seq<Cookie>, now: int)
    requires !p.Novelpia?
    ensures ValidInEveryStore(p, cookies, now) <==> SomeSurvives(p, FilterCookies(p, cookies), now)
  {
    var kept := FilterCookies(p, cookies);
    if SomeSurvives(p, kept, now) {
      var i: nat :| i < |kept| && SurvivesStorage(p, kept, i, now);
      forall jar, listing | IsListing(listing, SaveCookies(jar, p.AsStr(), kept), p.AsStr())
        ensures Validate(p, listing, now).valid
      {
        SurvivorIsValid(p, kept, i, now, jar, listing);
      }
    }
    if ValidInEveryStore(p, cookies, now) {
      var empty: Jar := map[];
      var after := SaveCookies(empty, p.AsStr(), kept);
      var listing := ListingExists(after, p.AsStr(), after.Keys);
      assert IsListing(listing, SaveCookies(empty, p.AsStr(), kept), p.AsStr());
      ValidNeedsSurvivor(p, kept, now, listing);
    }
  }

  /** A browser never holds two cookies of one name and domain here, and reports whole seconds:
      then whatever was classified as a login validates at the same instant. */
  lemma ConnectedThenValid(p: Platform, raw: seq<Cookie>, now: int)
    requires !p.Novelpia? && ClassifyAuthState(raw, p, now).LoggedIn?
    requires forall i, j | 0 <= i < j < |raw| ::
      raw[i].name != raw[j].name || raw[i].domain != raw[j].domain
    requires forall c | c in raw && c.expires.Some? :: c.expires.value % 1000 == 0
    ensures ValidInEveryStore(p, raw, now)
  {
    var kept := FilterCookies(p, raw);
    FilterKeepsSessionCookie(p, raw, now);
    FilterExact(p, raw);
    ActiveCookieFound(p, kept, p.SessionCookieName(), now);
    var i :| 0 <= i < |kept| && IsActive(p, kept[i], p.SessionCookieName(), now);
    FilterKeepsDistinct(p, raw);
    assert kept[i] in raw;
    ActiveSurvives(p, kept, i, now);
    ValidExactlyWhenOneSurvives(p, raw, now);
  }

  /** An active session cookie, the only one of its name and domain and with a whole-second expiry,
      survives storage. */
  lemma ActiveSurvives(p: Platform, kept: seq<Cookie>, i: nat, now: int)
    requires i < |kept| && IsActive(p, kept[i], p.SessionCookieName(), now)
    requires forall i, j | 0 <= i < j < |kept| ::
      kept[i].name != kept[j].name || kept[i].domain != kept[j].domain
    requires kept[i].expires.Some? ==> kept[i].expires.value % 1000 == 0
    ensures SurvivesStorage(p, kept, i, now)
  {
  }

  lemma {:induction false} FilterKeepsDistinct(p: Platform, cookies: seq<Cookie>)
    requires forall i, j | 0 <= i < j < |cookies| ::
      cookies[i].name != cookies[j].name || cookies[i].domain != cookies[j].domain
    ensures var kept := FilterCookies(p, cookies);
      forall i, j | 0 <= i < j < |kept| :: kept[i].name != kept[j].name || kept[i].domain != kept[j].domain
  {
    if cookies != [] {
      var rest := cookies[1..];
      assert forall i | 0 <= i < |rest| :: rest[i] == cookies[i + 1];
      FilterKeepsDistinct(p, rest);
      FilterExact(p, rest);
      var kept := FilterCookies(p, rest);
      forall j | 0 <= j < |kept|
        ensures cookies[0].name != kept[j].name || cookies[0].domain != kept[j].domain
      {
        assert kept[j] in rest;
        var n :| 0 <= n < |rest| && rest[n] == kept[j];
        assert cookies[n + 1] == kept[j];
      }
    }
  }

  /** Without whole seconds it fails: a cookie in its last half second is a login, but its stored
      copy has already expired. */
  lemma LastHalfSecondIsLost(value: string)
    ensures var c := Cookie("TOKEN", value, ".munpia.com", "/", Some(500), true, true);
      ClassifyAuthState([c], Munpia, 0).LoggedIn? && !ValidInEveryStore(Munpia, [c], 0)
  {
    var c := Cookie("TOKEN", value, ".munpia.com", "/", Some(500), true, true);
    assert Munpia.CookieDomains()[0] == ".munpia.com";
    assert DomainMatches(Canonical(c.domain), Canonical(Munpia.CookieDomains()[0]));
    assert IsActive(Munpia, c, "TOKEN", 0);
    assert ActiveCookie(Munpia, [c], "TOKEN", 0) == Some(c);
    assert [c][1..] == [] && FilterCookies(Munpia, []) == [];
    assert FilterCookies(Munpia, [c]) == [c] + [];
    ValidExactlyWhenOneSurvives(Munpia, [c], 0);
  }
}

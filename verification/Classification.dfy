/** What makes a login, and what it carries: the rules of `domain/platform.rs` stated by which cookies
    there are. */
module Classification {
  import opened Wrappers
  import opened Domain

  /** The cookie is of the platform and has not expired. */
  predicate Alive(p: Platform, c: Cookie, now: int) {
    CookieMatchesDomain(p, c) && (c.expires.Some? ==> now < c.expires.value)
  }

  /** The first living cookie of that name. */
  predicate IsFirst(p: Platform, raw: seq<Cookie>, name: string, now: int, i: nat) {
    && i < |raw| && raw[i].name == name && Alive(p, raw[i], now)
    && forall j | 0 <= j < i :: !(raw[j].name == name && Alive(p, raw[j], now))
  }

  ghost predicate HasFirst(p: Platform, raw: seq<Cookie>, name: string, now: int) {
    exists i: nat :: IsFirst(p, raw, name, now, i)
  }

  ghost predicate HasFilled(p: Platform, raw: seq<Cookie>, name: string, now: int) {
    exists i: nat :: IsFirst(p, raw, name, now, i) && raw[i].value != ""
  }

  /** What the browser has to hold for the user to be logged in.  Novelpia needs both keys, and either
      the cookie of a lasting login or the marker of this one. */
  ghost predicate IsLogin(p: Platform, raw: seq<Cookie>, now: int) {
    match p
    case Instagram => HasFirst(p, raw, "sessionid", now)
    case Threads => HasFirst(p, raw, "sessionid", now)
    case Naver => HasFirst(p, raw, "NID_AUT", now)
    case Munpia => HasFirst(p, raw, "TOKEN", now)
    case Novelpia =>
      && HasFilled(p, raw, "LOGINKEY", now) && HasFilled(p, raw, "USERKEY", now)
      && (HasFilled(p, raw, "AUTOLOGIN", now)
          || exists i: nat :: IsFirst(p, raw, "ISLOGIN", now, i) && raw[i].value == "1")
  }

  lemma FirstLater(p: Platform, raw: seq<Cookie>, name: string, now: int, i: nat)
    requires raw != [] && !(raw[0].name == name && Alive(p, raw[0], now))
    ensures IsFirst(p, raw[1..], name, now, i) <==> IsFirst(p, raw, name, now, i + 1)
  {
    if i + 1 < |raw| {
      assert raw[1..][i] == raw[i + 1];
      assert forall j | 0 <= j < i :: raw[1..][j] == raw[j + 1];
      assert forall j | 0 < j < i + 1 :: raw[j] == raw[1..][j - 1];
    }
  }

  lemma {:induction false} ActiveCookieIsFirst(p: Platform, raw: seq<Cookie>, name: string, now: int)
    returns (first: nat)
    ensures ActiveCookie(p, raw, name, now).Some? ==>
              IsFirst(p, raw, name, now, first) && ActiveCookie(p, raw, name, now) == Some(raw[first])
    ensures ActiveCookie(p, raw, name, now).None? ==> !HasFirst(p, raw, name, now)
  {
    first := 0;
    if raw != [] && !IsActive(p, raw[0], name, now) {
      var later := ActiveCookieIsFirst(p, raw[1..], name, now);
      first := later + 1;
      FirstLater(p, raw, name, now, later);
      if i: nat :| IsFirst(p, raw, name, now, i) { FirstLater(p, raw, name, now, i - 1); }
    }
  }

  lemma OnlyFirst(p: Platform, raw: seq<Cookie>, name: string, now: int)
    ensures HasFirst(p, raw, name, now) <==> ActiveCookie(p, raw, name, now).Some?
    ensures forall i: nat :: IsFirst(p, raw, name, now, i) ==> ActiveCookie(p, raw, name, now) == Some(raw[i])
  {
    var first := ActiveCookieIsFirst(p, raw, name, now);
    forall i: nat | IsFirst(p, raw, name, now, i) ensures ActiveCookie(p, raw, name, now) == Some(raw[i]) {
      assert i == first;
    }
  }

  /** Which cookie stands for the session, by existence: the first of its name, and for Novelpia the
      lasting one before the marker. */
  lemma SessionCookieExactly(p: Platform, raw: seq<Cookie>, now: int)
    ensures SessionCookie(p, raw, now).Some? <==> IsLogin(p, raw, now)
    ensures IsLogin(p, raw, now) ==>
      var name := if p.Novelpia? && !HasFilled(p, raw, "AUTOLOGIN", now) then "ISLOGIN" else p.SessionCookieName();
      exists i: nat :: IsFirst(p, raw, name, now, i) && SessionCookie(p, raw, now) == Some(raw[i])
  {
    if p.Novelpia? {
      OnlyFirst(p, raw, "LOGINKEY", now);
      OnlyFirst(p, raw, "USERKEY", now);
      OnlyFirst(p, raw, "AUTOLOGIN", now);
      OnlyFirst(p, raw, "ISLOGIN", now);
    } else {
      OnlyFirst(p, raw, p.SessionCookieName(), now);
    }
  }

  /** The kept cookies are those at these places, in their order, and no others are of the platform. */
  ghost predicate ArePlaces(p: Platform, raw: seq<Cookie>, kept: seq<Cookie>, places: seq<nat>) {
    && Hold(raw, kept, places) && Increasing(places)
    && (forall i: nat | i < |raw| :: CookieMatchesDomain(p, raw[i]) <==> i in places)
  }

  /** The places one further on. */
  function Moved(places: seq<nat>): (moved: seq<nat>)
    ensures |moved| == |places| && forall k | 0 <= k < |places| :: moved[k] == places[k] + 1
  {
    seq(|places|, k requires 0 <= k < |places| => places[k] + 1)
  }

  lemma MovedHas(places: seq<nat>, i: nat)
    ensures i in Moved(places) <==> i > 0 && i - 1 in places
  {
    if i > 0 && i - 1 in places {
      var k :| 0 <= k < |places| && places[k] == i - 1;
      assert Moved(places)[k] == i;
    }
  }

  lemma {:induction false} FilterPlaces(p: Platform, raw: seq<Cookie>) returns (places: seq<nat>)
    ensures ArePlaces(p, raw, FilterCookies(p, raw), places)
  {
    places := [];
    if raw != [] {
      var rest := FilterPlaces(p, raw[1..]);
      var matches := CookieMatchesDomain(p, raw[0]);
      places := if matches then [0] + Moved(rest) else Moved(rest);
      PlacesHas(p, raw, rest, places);
      MovedHold(raw, FilterCookies(p, raw[1..]), rest);
      if matches {
        MovedHas(rest, 0);
        FirstHold(raw, FilterCookies(p, raw[1..]), Moved(rest));
      } else {
        assert FilterCookies(p, raw) == FilterCookies(p, raw[1..]);
      }
    }
  }

  lemma PlacesHas(p: Platform, raw: seq<Cookie>, rest: seq<nat>, places: seq<nat>)
    requires raw != [] && ArePlaces(p, raw[1..], FilterCookies(p, raw[1..]), rest)
    requires places == if CookieMatchesDomain(p, raw[0]) then [0] + Moved(rest) else Moved(rest)
    ensures forall i: nat | i < |raw| :: CookieMatchesDomain(p, raw[i]) <==> i in places
  {
    forall i: nat | i < |raw| ensures CookieMatchesDomain(p, raw[i]) <==> i in places {
      MovedHas(rest, i);
      if i > 0 { assert raw[i] == raw[1..][i - 1]; }
    }
  }

  /** Each place holds the cookie kept there. */
  predicate Hold(raw: seq<Cookie>, kept: seq<Cookie>, places: seq<nat>) {
    |places| == |kept| && forall k | 0 <= k < |places| :: places[k] < |raw| && kept[k] == raw[places[k]]
  }

  predicate Increasing(places: seq<nat>) {
    forall k, m | 0 <= k < m < |places| :: places[k] < places[m]
  }

  lemma MovedHold(raw: seq<Cookie>, kept: seq<Cookie>, rest: seq<nat>)
    requires raw != [] && Hold(raw[1..], kept, rest) && Increasing(rest)
    ensures Hold(raw, kept, Moved(rest)) && Increasing(Moved(rest))
  {
    forall k | 0 <= k < |rest| ensures rest[k] + 1 < |raw| && kept[k] == raw[rest[k] + 1] {
      assert raw[1..][rest[k]] == raw[rest[k] + 1];
    }
  }

  lemma FirstHold(raw: seq<Cookie>, kept: seq<Cookie>, moved: seq<nat>)
    requires raw != [] && Hold(raw, kept, moved) && Increasing(moved) && 0 !in moved
    ensures Hold(raw, [raw[0]] + kept, [0] + moved) && Increasing([0] + moved)
  {
    var places: seq<nat> := [0] + moved;
    forall k, m | 0 <= k < m < |places| ensures places[k] < places[m] {
      assert moved[m - 1] in moved;
    }
  }

  /** Reading the browser's cookies: it is a login exactly when the cookies the platform needs are
      there, and then it carries all cookies of the platform and no others, in their order. */
  lemma ClassifiedExactly(p: Platform, raw: seq<Cookie>, now: int)
    ensures ClassifyAuthState(raw, p, now).LoggedIn? <==> IsLogin(p, raw, now)
    ensures ClassifyAuthState(raw, p, now).LoggedIn? ==>
      var cookies := ClassifyAuthState(raw, p, now).cookies;
      && (exists places :: ArePlaces(p, raw, cookies, places))
      && forall c :: c in cookies <==> c in raw && CookieMatchesDomain(p, c)
  {
    SessionCookieExactly(p, raw, now);
    FilterExact(p, raw);
    var places := FilterPlaces(p, raw);
  }

  // ---------------------------------------------------------------- whose cookie it is

  /** The domains of each platform. */
  function DomainsOf(p: Platform): seq<string> {
    match p
    case Instagram => [".instagram.com", ".threads.net", ".threads.com"]
    case Threads => [".instagram.com", ".threads.net", ".threads.com"]
    case Naver => [".naver.com", ".nid.naver.com"]
    case Novelpia => [".novelpia.com"]
    case Munpia => [".munpia.com"]
  }

  /** A cookie is a platform's exactly when one of these names ends its domain, label by label. */
  lemma CookieIsOwnExactly(p: Platform, c: Cookie)
    ensures CookieMatchesDomain(p, c) <==>
      exists i | 0 <= i < |DomainsOf(p)| :: LabelSuffix(Labels(Canonical(DomainsOf(p)[i])), Labels(Canonical(c.domain)))
  {
    CookieMatchesByLabels(p, c);
    assert DomainsOf(p) == p.CookieDomains();
  }

  // ---------------------------------------------------------------- states by name

  /** A stored status is one of the six words and stands for that state, or for none. */
  lemma StatusExactly(status: string, state: SessionState)
    ensures StateFromStr(status) == Some(state) <==> status == state.AsStr()
    ensures StateFromStr(status).None? <==>
      status !in {"idle", "loading", "authenticating", "waiting_for_user", "connected", "failed"}
  {
    match state
    case Idle => case Loading => case Authenticating => case WaitingForUser => case Connected => case Failed =>
  }

  // ---------------------------------------------------------------- letter case and leading dots

  predicate SameButCase(a: char, b: char) {
    a == b || ('A' <= a <= 'Z' && b as int == a as int + 32) || ('A' <= b <= 'Z' && a as int == b as int + 32)
  }

  /** The same name but for case. */
  predicate SameName(s: string, t: string) { |s| == |t| && forall i | 0 <= i < |s| :: SameButCase(s[i], t[i]) }

  lemma {:induction false} SameNameCanonical(s: string, t: string)
    requires SameName(s, t)
    ensures Canonical(s) == Canonical(t)
  {
    if s != "" && s[0] == '.' {
      SameNameCanonical(s[1..], t[1..]);
    }
  }

  /** The form in which domains are compared: leading dots and case make no difference, and a name
      without either is its own form. */
  lemma CanonicalExactly(s: string, t: string)
    ensures SameName(s, t) ==> Canonical(s) == Canonical(t)
    ensures Canonical("." + s) == Canonical(s)
    ensures (s == "" || s[0] != '.') && (forall i | 0 <= i < |s| :: !('A' <= s[i] <= 'Z')) ==> Canonical(s) == s
  {
    if SameName(s, t) { SameNameCanonical(s, t); }
    assert ("." + s)[1..] == s;
  }
}

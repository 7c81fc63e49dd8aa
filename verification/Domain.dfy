/** Sessions, cookies and platforms: `domain/session.rs`, `domain/platform.rs`, `domain/auth.rs`.
    Instants are whole milliseconds. */
module Domain {
  import opened Wrappers

  datatype SessionState = Idle | Loading | Authenticating | WaitingForUser | Connected | Failed {
    function AsStr(): string {
      match this
      case Idle => "idle"
      case Loading => "loading"
      case Authenticating => "authenticating"
      case WaitingForUser => "waiting_for_user"
      case Connected => "connected"
      case Failed => "failed"
    }
  }

  function StateFromStr(s: string): Option<SessionState> {
    if s == "idle" then Some(Idle)
    else if s == "loading" then Some(Loading)
    else if s == "authenticating" then Some(Authenticating)
    else if s == "waiting_for_user" then Some(WaitingForUser)
    else if s == "connected" then Some(Connected)
    else if s == "failed" then Some(Failed)
    else None
  }

  datatype Session = Session(
    id: string, platform: string, state: SessionState, message: Option<string>,
    requiresInput: bool, inputType: Option<string>, createdAt: int, updatedAt: int)

  datatype Cookie = Cookie(
    name: string, value: string, domain: string, path: string, expires: Option<int>,
    httpOnly: bool, secure: bool)

  function NewSession(id: string, platform: string, now: int): Session {
    Session(id, platform, Idle, None, false, None, now, now)
  }

  function Transition(s: Session, state: SessionState, message: Option<string>, now: int): Session {
    s.(state := state, message := message, updatedAt := now,
       requiresInput := state.WaitingForUser?,
       inputType := if state.WaitingForUser? then Some("viewer_url") else None)
  }

  /** Whole seconds of an instant, rounded down. */
  function Timestamp(ms: int): int { ms / 1000 }

  // ---------------------------------------------------------------- platforms

  datatype Platform = Instagram | Threads | Naver | Novelpia | Munpia {
    function AsStr(): string {
      match this
      case Instagram => "instagram"
      case Threads => "threads"
      case Naver => "naver"
      case Novelpia => "novelpia"
      case Munpia => "munpia"
    }

    function CookieDomains(): seq<string> {
      match this
      case Instagram => [".instagram.com", ".threads.net", ".threads.com"]
      case Threads => [".instagram.com", ".threads.net", ".threads.com"]
      case Naver => [".naver.com", ".nid.naver.com"]
      case Novelpia => [".novelpia.com"]
      case Munpia => [".munpia.com"]
    }

    function SessionCookieName(): string {
      match this
      case Instagram => "sessionid"
      case Threads => "sessionid"
      case Naver => "NID_AUT"
      case Novelpia => "AUTOLOGIN"
      case Munpia => "TOKEN"
    }
  }

  function TrimDots(s: string): string {
    if s != "" && s[0] == '.' then TrimDots(s[1..]) else s
  }

  function LowerChar(c: char): char {
    if 'A' <= c <= 'Z' then (c as int + 32) as char else c
  }

  function Lower(s: string): string {
    seq(|s|, i requires 0 <= i < |s| => LowerChar(s[i]))
  }

  function Canonical(domain: string): string { Lower(TrimDots(domain)) }

  predicate EndsWith(s: string, suffix: string) {
    |suffix| <= |s| && s[|s| - |suffix|..] == suffix
  }

  predicate DomainMatches(domain: string, allow: string) {
    domain == allow || EndsWith(domain, "." + allow)
  }

  predicate CookieMatchesDomain(p: Platform, cookie: Cookie) {
    exists i | 0 <= i < |p.CookieDomains()| ::
      DomainMatches(Canonical(cookie.domain), Canonical(p.CookieDomains()[i]))
  }

  function FilterCookies(p: Platform, cookies: seq<Cookie>): seq<Cookie> {
    if cookies == [] then []
    else (if CookieMatchesDomain(p, cookies[0]) then [cookies[0]] else [])
         + FilterCookies(p, cookies[1..])
  }

  predicate IsActive(p: Platform, cookie: Cookie, name: string, now: int) {
    && cookie.name == name
    && CookieMatchesDomain(p, cookie)
    && (cookie.expires.None? || cookie.expires.value > now)
  }

  function ActiveCookie(p: Platform, cookies: seq<Cookie>, name: string, now: int): Option<Cookie> {
    if cookies == [] then None
    else if IsActive(p, cookies[0], name, now) then Some(cookies[0])
    else ActiveCookie(p, cookies[1..], name, now)
  }

  function SessionCookie(p: Platform, cookies: seq<Cookie>, now: int): Option<Cookie> {
    if p.Novelpia? then
      var loginKey := ActiveCookie(p, cookies, "LOGINKEY", now);
      var userKey := ActiveCookie(p, cookies, "USERKEY", now);
      if loginKey.None? || loginKey.value.value == "" || userKey.None? || userKey.value.value == ""
      then None
      else
        var auto := ActiveCookie(p, cookies, "AUTOLOGIN", now);
        if auto.Some? && auto.value.value != "" then auto
        else
          var marker := ActiveCookie(p, cookies, "ISLOGIN", now);
          if marker.Some? && marker.value.value == "1" then marker else None
    else ActiveCookie(p, cookies, p.SessionCookieName(), now)
  }

  datatype AuthCheckpoint = LoggedIn(cookies: seq<Cookie>) | Pending

  function ClassifyAuthState(cookies: seq<Cookie>, p: Platform, now: int): AuthCheckpoint {
    if SessionCookie(p, cookies, now).Some? then LoggedIn(FilterCookies(p, cookies)) else Pending
  }

  // ---------------------------------------------------------------- what classification means

  lemma {:induction false} FilterKeepsActive(p: Platform, cookies: seq<Cookie>, name: string, now: int)
    ensures ActiveCookie(p, FilterCookies(p, cookies), name, now) == ActiveCookie(p, cookies, name, now)
  {
    if cookies != [] {
      FilterKeepsActive(p, cookies[1..], name, now);
      var rest := FilterCookies(p, cookies[1..]);
      if CookieMatchesDomain(p, cookies[0]) {
        assert ([cookies[0]] + rest)[1..] == rest;
      } else {
        assert [] + rest == rest;
      }
    }
  }

  /** Dropping the cookies of other sites never changes which session cookie is found. */
  lemma FilterKeepsSessionCookie(p: Platform, cookies: seq<Cookie>, now: int)
    ensures SessionCookie(p, FilterCookies(p, cookies), now) == SessionCookie(p, cookies, now)
  {
    FilterKeepsActive(p, cookies, "LOGINKEY", now);
    FilterKeepsActive(p, cookies, "USERKEY", now);
    FilterKeepsActive(p, cookies, "AUTOLOGIN", now);
    FilterKeepsActive(p, cookies, "ISLOGIN", now);
    FilterKeepsActive(p, cookies, p.SessionCookieName(), now);
  }

  /** The filter keeps exactly the matching cookies, and filtering again changes nothing. */
  lemma {:induction false} FilterExact(p: Platform, cookies: seq<Cookie>)
    ensures forall c :: c in FilterCookies(p, cookies) <==> c in cookies && CookieMatchesDomain(p, c)
    ensures FilterCookies(p, FilterCookies(p, cookies)) == FilterCookies(p, cookies)
  {
    if cookies != [] {
      FilterExact(p, cookies[1..]);
      var rest := FilterCookies(p, cookies[1..]);
      if CookieMatchesDomain(p, cookies[0]) {
        assert ([cookies[0]] + rest)[1..] == rest;
      } else {
        assert [] + rest == rest;
      }
    }
  }

  lemma {:induction false} ActiveCookieFound(p: Platform, cookies: seq<Cookie>, name: string, now: int)
    ensures ActiveCookie(p, cookies, name, now).Some? <==>
            exists i :: 0 <= i < |cookies| && IsActive(p, cookies[i], name, now)
    ensures ActiveCookie(p, cookies, name, now).Some? ==>
            ActiveCookie(p, cookies, name, now).value in cookies
            && IsActive(p, ActiveCookie(p, cookies, name, now).value, name, now)
  {
    if cookies != [] {
      ActiveCookieFound(p, cookies[1..], name, now);
      if i :| 0 <= i < |cookies| && IsActive(p, cookies[i], name, now) {
        assert i > 0 ==> cookies[1..][i - 1] == cookies[i];
      }
      if j :| 0 <= j < |cookies[1..]| && IsActive(p, cookies[1..][j], name, now) {
        assert cookies[j + 1] == cookies[1..][j];
      }
    }
  }

  // ---------------------------------------------------------------- domains as labels

  /** A domain name split at its dots: `a.b.c` has the labels `a`, `b`, `c`. */
  function Labels(s: string): (ls: seq<string>)
    ensures |ls| > 0
  {
    if s == "" then [""]
    else
      var rest := Labels(s[1..]);
      if s[0] == '.' then [""] + rest else [[s[0]] + rest[0]] + rest[1..]
  }

  function Joined(ls: seq<string>): string
    requires |ls| > 0
  {
    if |ls| == 1 then ls[0] else ls[0] + "." + Joined(ls[1..])
  }

  predicate LabelSuffix(suffix: seq<string>, ls: seq<string>) {
    |suffix| <= |ls| && ls[|ls| - |suffix|..] == suffix
  }

  lemma {:induction false} JoinedLabels(s: string)
    ensures Joined(Labels(s)) == s
  {
    if s != "" {
      JoinedLabels(s[1..]);
      var rest := Labels(s[1..]);
      assert s == [s[0]] + s[1..];
      if s[0] == '.' {
        assert Labels(s)[1..] == rest;
        assert Joined(Labels(s)) == "" + "." + Joined(rest);
      } else {
        var ls := Labels(s);
        assert ls[0] == [s[0]] + rest[0] && ls[1..] == rest[1..];
        if |rest| > 1 {
          assert ls[0] + "." + Joined(ls[1..]) == [s[0]] + (rest[0] + "." + Joined(rest[1..]));
        }
      }
    }
  }

  lemma LabelsCons(c: char, s: string)
    ensures Labels([c] + s) ==
            if c == '.' then [""] + Labels(s) else [[c] + Labels(s)[0]] + Labels(s)[1..]
  {
    assert ([c] + s)[1..] == s;
  }

  lemma {:induction false} LabelsOfDotted(x: string, a: string)
    ensures Labels(x + "." + a) == Labels(x) + Labels(a)
  {
    if x == "" {
      LabelsCons('.', a);
      assert x + "." + a == ['.'] + a;
    } else {
      var c, y := x[0], x[1..];
      LabelsOfDotted(y, a);
      LabelsCons(c, y + "." + a);
      assert x + "." + a == [c] + (y + "." + a);
      PrependToFirst(c, Labels(y), Labels(a));
    }
  }

  lemma PrependToFirst(c: char, r: seq<string>, a: seq<string>)
    requires |r| > 0
    ensures [""] + (r + a) == ([""] + r) + a
    ensures [[c] + (r + a)[0]] + (r + a)[1..] == ([[c] + r[0]] + r[1..]) + a
  {
  }

  lemma {:induction false} JoinedConcat(xs: seq<string>, ys: seq<string>)
    requires |xs| > 0 && |ys| > 0
    ensures Joined(xs + ys) == Joined(xs) + "." + Joined(ys)
  {
    if |xs| == 1 {
      assert (xs + ys)[1..] == ys;
    } else {
      JoinedConcat(xs[1..], ys);
      assert (xs + ys)[1..] == xs[1..] + ys;
      assert xs[0] + "." + (Joined(xs[1..]) + "." + Joined(ys))
          == (xs[0] + "." + Joined(xs[1..])) + "." + Joined(ys);
    }
  }

  /** The textual test of the source (equal, or ending in a dot and the allowed name) says exactly
      that the allowed name's labels end the domain's labels: `evilnaver.com` is not below
      `naver.com`.  This is the domain match of section 5.1.3 of RFC 6265 for host names. */
  lemma DomainMatchIsLabelSuffix(domain: string, allow: string)
    ensures DomainMatches(domain, allow) <==> LabelSuffix(Labels(allow), Labels(domain))
  {
    if DomainMatches(domain, allow) && domain != allow {
      var x := domain[..|domain| - |"." + allow|];
      assert domain == x + ("." + allow);
      assert x + ("." + allow) == x + "." + allow;
      LabelsOfDotted(x, allow);
    }
    if LabelSuffix(Labels(allow), Labels(domain)) {
      SuffixByLabels(domain, allow);
    }
  }

  lemma SuffixByLabels(domain: string, allow: string)
    requires LabelSuffix(Labels(allow), Labels(domain))
    ensures DomainMatches(domain, allow)
  {
    var ls, k := Labels(domain), |Labels(domain)| - |Labels(allow)|;
    JoinedLabels(domain);
    JoinedLabels(allow);
    if k == 0 {
      assert ls[0..] == ls;
    } else {
      assert ls[..k] + ls[k..] == ls;
      JoinedConcat(ls[..k], ls[k..]);
      DottedEndsWith(Joined(ls[..k]), allow);
    }
  }

  lemma DottedEndsWith(x: string, allow: string)
    ensures EndsWith(x + "." + allow, "." + allow)
  {
    assert x + "." + allow == x + ("." + allow);
  }

  /** A cookie belongs to a platform exactly when the labels of one of the platform's domains end
      the labels of the cookie's domain, ignoring case and leading dots. */
  lemma CookieMatchesByLabels(p: Platform, cookie: Cookie)
    ensures CookieMatchesDomain(p, cookie) <==>
            exists i | 0 <= i < |p.CookieDomains()| ::
              LabelSuffix(Labels(Canonical(p.CookieDomains()[i])), Labels(Canonical(cookie.domain)))
  {
    forall i | 0 <= i < |p.CookieDomains()|
      ensures DomainMatches(Canonical(cookie.domain), Canonical(p.CookieDomains()[i])) <==>
              LabelSuffix(Labels(Canonical(p.CookieDomains()[i])), Labels(Canonical(cookie.domain)))
    {
      DomainMatchIsLabelSuffix(Canonical(cookie.domain), Canonical(p.CookieDomains()[i]));
    }
  }
}

/** Event subscriptions (`listeners.rs`): events queue up at each listener of their method, and a
    pass drains the queues and forgets the listeners whose receiver is gone. */
module Listeners {
  import opened Wrappers
  import opened Passes

  type Method = string
  type Id = nat
  type Json = int
  type Converter = nat

  datatype Event = Typed(n: int) | Converted(using_: Converter, value: Json)

  datatype Kind = Builtin | Custom(conv: Converter)

  /** A subscription; `channel` is everything that was put into the receiver's channel. */
  datatype Listener = Listener(id: Id, kind: Kind, queued: seq<Event>, channel: seq<Event>)

  type Subscriptions = map<Method, seq<Listener>>

  // ---------------------------------------------------------------- one listener

  datatype Stop = Blocks | ClosedWhenReady | ClosedWhenSending

  /** What the channel does during one poll: it takes some events and then stops. */
  datatype Link = Link(accepts: nat, stop: Stop)

  datatype PollResult = Ready | Pending | Disconnected

  predicate Drops(l: Listener, link: Link) {
    match link.stop
    case Blocks => false
    case ClosedWhenReady => link.accepts <= |l.queued|
    case ClosedWhenSending => link.accepts < |l.queued|
  }

  function Delivered(l: Listener, link: Link): nat { Min(link.accepts, |l.queued|) }

  function Drained(l: Listener, link: Link): Listener {
    l.(queued := l.queued[Delivered(l, link)..], channel := l.channel + l.queued[..Delivered(l, link)])
  }

  /** One poll moves events from the queue to the channel, oldest first, until the queue is empty or
      the channel stops; only a receiver that is gone makes it fail. */
  method PollListener(l0: Listener, link: Link) returns (l: Listener, result: PollResult)
    ensures result.Disconnected? <==> Drops(l0, link)
    ensures result.Ready? ==> l.queued == []
    ensures result.Pending? ==> link.stop.Blocks? && link.accepts <= |l0.queued|
    ensures !result.Disconnected? ==> l == Drained(l0, link)
  {
    l := l0;
    var taken := 0;
    while true
      invariant taken <= link.accepts && taken <= |l0.queued|
      invariant l == l0.(queued := l0.queued[taken..], channel := l0.channel + l0.queued[..taken])
      decreases |l0.queued| - taken
    {
      if taken == link.accepts && link.stop.Blocks? { return l, Pending; }
      if taken == link.accepts && link.stop.ClosedWhenReady? { return l, Disconnected; }
      if l.queued == [] { return l, Ready; }
      var event := l.queued[0];
      l := l.(queued := l.queued[1..]);
      if taken == link.accepts { return l, Disconnected; }
      l := l.(channel := l.channel + [event]);
      taken := taken + 1;
    }
  }

  // ---------------------------------------------------------------- all listeners

  /** What was sent: to every listener of the method, or to the custom ones only. */
  datatype Sent = Sent(method_: Method, customOnly: bool, event: Event)

  /** What the listeners of a method should hear of a stretch of what was sent. */
  function Heard(sent: seq<Sent>, m: Method, custom: bool): seq<Event> {
    if sent == [] then []
    else
      var last := sent[|sent| - 1];
      Heard(sent[..|sent| - 1], m, custom)
      + if last.method_ == m && (last.customOnly ==> custom) then [last.event] else []
  }

  datatype Registration = Registration(method_: Method, kind: Kind, since: nat)

  /** The listeners, with what happened so far: everything sent, who registered, who is gone. */
  datatype World = World(subs: Subscriptions, sent: seq<Sent>, registered: map<Id, Registration>, gone: set<Id>)

  const NEW_WORLD := World(map[], [], map[], {})

  function Of(subs: Subscriptions, m: Method): seq<Listener> { if m in subs then subs[m] else [] }

  function Queued(l: Listener, customOnly: bool, event: Event): Listener {
    if customOnly && !l.kind.Custom? then l else l.(queued := l.queued + [event])
  }

  function QueuedAll(s: seq<Listener>, customOnly: bool, event: Event): (r: seq<Listener>)
    ensures |r| == |s| && forall i | 0 <= i < |s| :: r[i] == Queued(s[i], customOnly, event)
  {
    if s == [] then [] else [Queued(s[0], customOnly, event)] + QueuedAll(s[1..], customOnly, event)
  }

  /** The converter of the first custom listener in the list. */
  function FirstConverter(s: seq<Listener>): Option<Converter> {
    if s == [] then None else if s[0].kind.Custom? then Some(s[0].kind.conv) else FirstConverter(s[1..])
  }

  function Visited(l: Listener, link: Link): Option<Listener> {
    if Drops(l, link) then None else Some(Drained(l, link))
  }

  function Visits(s: seq<Listener>, links: Id -> Link): (v: seq<Option<Listener>>)
    ensures |v| == |s| && forall i | 0 <= i < |s| :: v[i] == Visited(s[i], links(s[i].id))
  {
    if s == [] then [] else [Visited(s[0], links(s[0].id))] + Visits(s[1..], links)
  }

  ghost function Lost(subs: Subscriptions, links: Id -> Link): set<Id> {
    set m, l | m in subs && l in subs[m] && Drops(l, links(l.id)) :: l.id
  }

  /** The first custom listener of the list. */
  predicate IsFirstCustom(s: seq<Listener>, i: nat, conv: Converter) {
    i < |s| && s[i].kind == Custom(conv) && forall j | 0 <= j < i :: s[j].kind.Builtin?
  }

  lemma {:induction false} FirstConverterExactly(s: seq<Listener>, conv: Converter)
    ensures FirstConverter(s) == Some(conv) <==> exists i: nat :: IsFirstCustom(s, i, conv)
  {
    if s != [] {
      FirstConverterExactly(s[1..], conv);
      if s[0].kind.Custom? {
        if s[0].kind.conv == conv { assert IsFirstCustom(s, 0, conv); }
      } else {
        if i: nat :| IsFirstCustom(s, i, conv) {
          assert forall j | 0 <= j < i - 1 :: s[1..][j] == s[j + 1];
          assert IsFirstCustom(s[1..], i - 1, conv);
        }
        if i: nat :| IsFirstCustom(s[1..], i, conv) {
          assert forall j | 0 < j < i + 1 :: s[j] == s[1..][j - 1];
          assert IsFirstCustom(s, i + 1, conv);
        }
      }
    }
  }

  datatype Input =
    | Add(id: Id, m: Method, kind: Kind)
    | Send(m: Method, event: Event)
    | SendCustom(m: Method, value: Json, accepts: Converter -> bool)
    | Poll(links: Id -> Link)

  /** The conversion is the first custom listener's own; a value it refuses is sent to nobody. */
  function CustomSent(subs: Subscriptions, m: Method, value: Json, accepts: Converter -> bool): Option<Sent> {
    match FirstConverter(Of(subs, m))
    case None => None
    case Some(conv) => if accepts(conv) then Some(Sent(m, true, Converted(conv, value))) else None
  }

  function AfterSend(w: World, s: Sent): World {
    w.(subs := if s.method_ in w.subs
               then w.subs[s.method_ := QueuedAll(w.subs[s.method_], s.customOnly, s.event)] else w.subs,
       sent := w.sent + [s])
  }

  ghost function Step(w: World, input: Input): World {
    match input
    case Add(id, m, kind) =>
      w.(subs := w.subs[m := Of(w.subs, m) + [Listener(id, kind, [], [])]],
         registered := w.registered[id := Registration(m, kind, |w.sent|)])
    case Send(m, event) => AfterSend(w, Sent(m, false, event))
    case SendCustom(m, value, accepts) =>
      var s := CustomSent(w.subs, m, value, accepts);
      if s.Some? then AfterSend(w, s.value) else w
    case Poll(links) =>
      w.(subs := map m | m in w.subs :: Passed(Visits(w.subs[m], links)), gone := w.gone + Lost(w.subs, links))
  }

  // ---------------------------------------------------------------- what every run keeps

  function Ids(s: seq<Listener>): (r: seq<Id>)
    ensures |r| == |s|
  { if s == [] then [] else [s[0].id] + Ids(s[1..]) }

  /** How often an id is listed under a method. */
  function Listed(subs: Subscriptions, m: Method, id: Id): nat { multiset(Ids(Of(subs, m)))[id] }

  /** How often it should be: once under its own method until it is gone. */
  function Due(w: World, m: Method, id: Id): nat {
    if id in w.registered && w.registered[id].method_ == m && id !in w.gone then 1 else 0
  }

  ghost predicate ListedOnce(w: World) { forall m, id :: Listed(w.subs, m, id) == Due(w, m, id) }

  /** What it has heard, and what is still queued for it, is all that was sent since it came. */
  ghost predicate HearsAll(w: World, m: Method, l: Listener) {
    && l.id in w.registered && w.registered[l.id].kind == l.kind && w.registered[l.id].since <= |w.sent|
    && l.channel + l.queued == Heard(w.sent[w.registered[l.id].since..], m, l.kind.Custom?)
  }

  ghost predicate Inv(w: World) {
    && ListedOnce(w)
    && w.gone <= w.registered.Keys
    && forall m, l | m in w.subs && l in w.subs[m] :: HearsAll(w, m, l)
  }

  lemma {:induction false} IdsAppend(a: seq<Listener>, b: seq<Listener>)
    ensures Ids(a + b) == Ids(a) + Ids(b)
  {
    if a == [] {
      assert a + b == b;
    } else {
      assert (a + b)[1..] == a[1..] + b;
      IdsAppend(a[1..], b);
    }
  }

  lemma {:induction false} IdIsListed(s: seq<Listener>, id: Id)
    ensures id in multiset(Ids(s)) <==> exists l :: l in s && l.id == id
  {
    if s != [] {
      IdIsListed(s[1..], id);
      assert s == [s[0]] + s[1..];
      if id in multiset(Ids(s)) {
        if s[0].id == id { assert s[0] in s; }
        else {
          assert id in multiset(Ids(s[1..]));
          var l :| l in s[1..] && l.id == id;
          assert l in s;
        }
      }
    }
  }

  lemma RotatedIds(s: seq<Listener>)
    ensures multiset(Ids(Rotated(s))) == multiset(Ids(s))
  {
    if s != [] {
      IdsAppend([s[|s| - 1]], s[..|s| - 1]);
      IdsAppend(s[..|s| - 1], [s[|s| - 1]]);
      assert s == s[..|s| - 1] + [s[|s| - 1]];
    }
  }

  /** One turn of a pass lists an id once more if the listener visited has it and stays. */
  lemma TurnCounts(s: seq<Listener>, links: Id -> Link, id: Id)
    requires s != []
    ensures multiset(Ids(Passed(Visits(s, links))))[id]
         == multiset(Ids(Passed(Visits(s[1..], links))))[id]
            + if s[0].id == id && !Drops(s[0], links(id)) then 1 else 0
  {
    var rest := Passed(Visits(s[1..], links));
    var kept := Kept(Visited(s[0], links(s[0].id)));
    assert Visits(s, links)[1..] == Visits(s[1..], links);
    RotatedIds(rest);
    IdsAppend(Rotated(rest), kept);
    assert Ids(kept) == if Drops(s[0], links(s[0].id)) then [] else [s[0].id];
  }

  /** How often an id is listed after a pass: as before if its listener stays, else not at all. */
  lemma {:induction false} PassCounts(s: seq<Listener>, links: Id -> Link, id: Id)
    ensures (forall l | l in s && l.id == id :: !Drops(l, links(id))) ==>
              multiset(Ids(Passed(Visits(s, links))))[id] == multiset(Ids(s))[id]
    ensures (forall l | l in s && l.id == id :: Drops(l, links(id))) ==>
              multiset(Ids(Passed(Visits(s, links))))[id] == 0
  {
    if s != [] {
      TurnCounts(s, links, id);
      PassCounts(s[1..], links, id);
      assert Ids(s) == [s[0].id] + Ids(s[1..]);
      assert s[0] in s;
    }
  }

  /** Who comes out of a pass is someone who went in, with the same events in channel and queue. */
  lemma {:induction false} PassedFrom(s: seq<Listener>, links: Id -> Link, r: Listener)
    requires r in Passed(Visits(s, links))
    ensures exists l :: l in s && !Drops(l, links(l.id)) && r == Drained(l, links(l.id))
  {
    if s != [] {
      assert Visits(s, links)[1..] == Visits(s[1..], links);
      var rest := Passed(Visits(s[1..], links));
      RotatedSame(rest);
      assert r in multiset(Rotated(rest)) ==> r in multiset(rest);
      if r in Kept(Visited(s[0], links(s[0].id))) {
        assert s[0] in s;
      } else {
        assert r in Rotated(rest);
        PassedFrom(s[1..], links, r);
        var l :| l in s[1..] && !Drops(l, links(l.id)) && r == Drained(l, links(l.id));
        assert l in s;
      }
    }
  }

  lemma ListedIsThere(subs: Subscriptions, m: Method, id: Id)
    ensures Listed(subs, m, id) > 0 <==> exists l :: l in Of(subs, m) && l.id == id
  {
    IdIsListed(Of(subs, m), id);
  }

  lemma AddLists(subs: Subscriptions, l: Listener, m: Method, id: Id)
    ensures Listed(subs[m := Of(subs, m) + [l]], m, id) == Listed(subs, m, id) + if l.id == id then 1 else 0
  {
    IdsAppend(Of(subs, m), [l]);
    assert Ids([l]) == [l.id];
  }

  lemma AddCounts(w: World, id: Id, m: Method, kind: Kind, m': Method, id': Id)
    requires Listed(w.subs, m', id') == Due(w, m', id') && id !in w.registered && id !in w.gone
    ensures Listed(Step(w, Add(id, m, kind)).subs, m', id') == Due(Step(w, Add(id, m, kind)), m', id')
  {
    if m' == m { AddLists(w.subs, Listener(id, kind, [], []), m, id'); }
  }

  lemma AddKeeps(w: World, id: Id, m: Method, kind: Kind)
    requires Inv(w) && id !in w.registered
    ensures Inv(Step(w, Add(id, m, kind)))
  {
    var w' := Step(w, Add(id, m, kind));
    forall m', id' ensures Listed(w'.subs, m', id') == Due(w', m', id') {
      assert Listed(w.subs, m', id') == Due(w, m', id');
      AddCounts(w, id, m, kind, m', id');
    }
    forall m', l | m' in w'.subs && l in w'.subs[m'] ensures HearsAll(w', m', l) {
      if m' == m && l == Listener(id, kind, [], []) {
        assert w'.sent[|w'.sent|..] == [];
      } else {
        assert m' in w.subs && l in w.subs[m'] && HearsAll(w, m', l);
      }
    }
  }

  lemma {:induction false} QueueingKeepsIds(s: seq<Listener>, customOnly: bool, event: Event)
    ensures Ids(QueuedAll(s, customOnly, event)) == Ids(s)
  {
    if s != [] { QueueingKeepsIds(s[1..], customOnly, event); }
  }

  lemma SendCounts(w: World, s: Sent)
    requires ListedOnce(w)
    ensures ListedOnce(AfterSend(w, s))
  {
    var w' := AfterSend(w, s);
    forall m, id ensures Listed(w'.subs, m, id) == Due(w', m, id) {
      assert Listed(w.subs, m, id) == Due(w, m, id);
      if m == s.method_ && m in w.subs { QueueingKeepsIds(w.subs[m], s.customOnly, s.event); }
    }
  }

  /** One more event sent is one more event queued, for exactly the listeners it is for. */
  lemma HearsOneMore(w: World, s: Sent, m: Method, l: Listener)
    requires HearsAll(w, m, l)
    ensures HearsAll(AfterSend(w, s), m, if m == s.method_ then Queued(l, s.customOnly, s.event) else l)
  {
    var since := w.registered[l.id].since;
    var heard := (w.sent + [s])[since..];
    assert heard[..|heard| - 1] == w.sent[since..] && heard[|heard| - 1] == s;
    assert l.channel + (l.queued + [s.event]) == (l.channel + l.queued) + [s.event];
  }

  lemma SendKeeps(w: World, s: Sent)
    requires Inv(w)
    ensures Inv(AfterSend(w, s))
  {
    var w' := AfterSend(w, s);
    SendCounts(w, s);
    forall m, l' | m in w'.subs && l' in w'.subs[m] ensures HearsAll(w', m, l') {
      var i :| 0 <= i < |w'.subs[m]| && w'.subs[m][i] == l';
      var l := w.subs[m][i];
      assert l in w.subs[m] && HearsAll(w, m, l);
      HearsOneMore(w, s, m, l);
    }
  }

  lemma {:induction false} OnlyOne(s: seq<Listener>, id: Id, a: Listener, b: Listener)
    requires multiset(Ids(s))[id] <= 1 && a in s && b in s && a.id == id && b.id == id
    ensures a == b
  {
    assert Ids(s) == [s[0].id] + Ids(s[1..]);
    assert s == [s[0]] + s[1..];
    if a in s[1..] && b in s[1..] { OnlyOne(s[1..], id, a, b); }
    else { IdIsListed(s[1..], id); }
  }

  lemma SameListener(w: World, m: Method, l: Listener, m': Method, l': Listener)
    requires ListedOnce(w) && l in Of(w.subs, m) && l' in Of(w.subs, m') && l.id == l'.id
    ensures m == m' && l == l'
  {
    ListedIsThere(w.subs, m, l.id);
    ListedIsThere(w.subs, m', l.id);
    assert Listed(w.subs, m, l.id) == Due(w, m, l.id) && Listed(w.subs, m', l.id) == Due(w, m', l.id);
    OnlyOne(Of(w.subs, m), l.id, l, l');
  }

  /** A listener is lost exactly when its own poll fails. */
  lemma LostExactly(w: World, links: Id -> Link, m: Method, l: Listener)
    requires ListedOnce(w) && m in w.subs && l in w.subs[m]
    ensures l.id in Lost(w.subs, links) <==> Drops(l, links(l.id))
  {
    if l.id in Lost(w.subs, links) {
      var m', l' :| m' in w.subs && l' in w.subs[m'] && Drops(l', links(l'.id)) && l'.id == l.id;
      SameListener(w, m, l, m', l');
    }
  }

  lemma PollCountsOne(w: World, links: Id -> Link, m: Method, id: Id)
    requires ListedOnce(w)
    ensures Listed(Step(w, Poll(links)).subs, m, id) == Due(Step(w, Poll(links)), m, id)
  {
    assert Listed(w.subs, m, id) == Due(w, m, id);
    ListedIsThere(w.subs, m, id);
    var s := Of(w.subs, m);
    if Due(w, m, id) == 1 {
      var l :| l in s && l.id == id;
      forall l' | l' in s && l'.id == id ensures l' == l { SameListener(w, m, l', m, l); }
      LostExactly(w, links, m, l);
    }
    PassCounts(s, links, id);
  }

  lemma PollCounts(w: World, links: Id -> Link)
    requires ListedOnce(w)
    ensures ListedOnce(Step(w, Poll(links)))
  {
    var w' := Step(w, Poll(links));
    forall m, id ensures Listed(w'.subs, m, id) == Due(w', m, id) { PollCountsOne(w, links, m, id); }
  }

  lemma DrainingMovesOnly(l: Listener, link: Link)
    ensures Drained(l, link).channel + Drained(l, link).queued == l.channel + l.queued
  {
    var n := Delivered(l, link);
    assert l.queued == l.queued[..n] + l.queued[n..];
  }

  lemma PollHears(w: World, links: Id -> Link, m: Method, r: Listener)
    requires m in w.subs && r in Passed(Visits(w.subs[m], links))
    requires forall l | l in w.subs[m] :: HearsAll(w, m, l)
    ensures HearsAll(w, m, r)
  {
    PassedFrom(w.subs[m], links, r);
    var l :| l in w.subs[m] && !Drops(l, links(l.id)) && r == Drained(l, links(l.id));
    assert HearsAll(w, m, l);
    DrainingMovesOnly(l, links(l.id));
  }

  lemma PollKeeps(w: World, links: Id -> Link)
    requires Inv(w)
    ensures Inv(Step(w, Poll(links)))
  {
    var w' := Step(w, Poll(links));
    PollCounts(w, links);
    forall m, r | m in w'.subs && r in w'.subs[m] ensures HearsAll(w', m, r) {
      PollHears(w, links, m, r);
      assert HearsAll(w, m, r);
    }
    forall id | id in Lost(w.subs, links) ensures id in w.registered {
      var m, l :| m in w.subs && l in w.subs[m] && Drops(l, links(l.id)) && l.id == id;
      assert HearsAll(w, m, l);
    }
  }

  /** A raw value is sent, once, to the custom listeners of its method exactly when there are any and the
      converter of the first of them accepts it; in no other case does anything happen. */
  lemma CustomSentExactly(w: World, m: Method, value: Json, accepts: Converter -> bool, conv: Converter)
    ensures var n := Step(w, SendCustom(m, value, accepts)); var s := Of(w.subs, m);
      && ((exists i: nat :: IsFirstCustom(s, i, conv)) && accepts(conv) ==>
            n == AfterSend(w, Sent(m, true, Converted(conv, value))))
      && ((forall c, i: nat :: IsFirstCustom(s, i, c) ==> !accepts(c)) ==> n == w)
  {
    FirstConverterExactly(Of(w.subs, m), conv);
    var first := FirstConverter(Of(w.subs, m));
    if first.Some? { FirstConverterExactly(Of(w.subs, m), first.value); }
  }

  ghost predicate IsRun(run: seq<World>, inputs: seq<Input>) {
    && |run| == |inputs| + 1 && run[0] == NEW_WORLD
    && forall i | 0 <= i < |inputs| ::
         && (inputs[i].Add? ==> inputs[i].id !in run[i].registered)
         && run[i + 1] == Step(run[i], inputs[i])
  }

  lemma StepKeeps(w: World, input: Input)
    requires Inv(w) && (input.Add? ==> input.id !in w.registered)
    ensures Inv(Step(w, input))
  {
    match input
    case Add(id, m, kind) => AddKeeps(w, id, m, kind);
    case Send(m, event) => SendKeeps(w, Sent(m, false, event));
    case SendCustom(m, value, accepts) =>
      var s := CustomSent(w.subs, m, value, accepts);
      if s.Some? { SendKeeps(w, s.value); }
    case Poll(links) => PollKeeps(w, links);
  }

  lemma {:induction false} InvOnEveryRun(run: seq<World>, inputs: seq<Input>, i: nat)
    requires IsRun(run, inputs) && i < |run|
    ensures Inv(run[i])
  {
    if i > 0 {
      InvOnEveryRun(run, inputs, i - 1);
      assert run[i - 1 + 1] == Step(run[i - 1], inputs[i - 1]);
      StepKeeps(run[i - 1], inputs[i - 1]);
    }
  }

  /** On every run, a listener whose receiver was never found gone is listed, exactly once, and its
      channel and queue hold exactly what was sent since it registered, in order. */
  lemma ConnectedHearsEverything(run: seq<World>, inputs: seq<Input>, i: nat, id: Id)
    requires IsRun(run, inputs) && i < |run| && id in run[i].registered && id !in run[i].gone
    ensures var w := run[i]; var r := w.registered[id];
      && (forall m :: Listed(w.subs, m, id) == if m == r.method_ then 1 else 0)
      && r.since <= |w.sent|
      && exists l :: l in Of(w.subs, r.method_) && l.id == id
           && l.channel + l.queued == Heard(w.sent[r.since..], r.method_, r.kind.Custom?)
  {
    InvOnEveryRun(run, inputs, i);
    var w := run[i];
    var r := w.registered[id];
    assert forall m :: Listed(w.subs, m, id) == Due(w, m, id);
    ListedIsThere(w.subs, r.method_, id);
    var l :| l in Of(w.subs, r.method_) && l.id == id;
    assert HearsAll(w, r.method_, l);
  }

  // ---------------------------------------------------------------- the object

  /** The passes over all methods but the listed ones are done. */
  ghost predicate HalfPolled(before: Subscriptions, now: Subscriptions, todo: set<Method>, links: Id -> Link) {
    && now.Keys == before.Keys
    && forall m | m in before :: now[m] == (if m in todo then before[m] else Passed(Visits(before[m], links)))
  }

  class EventListeners {
    var listeners: Subscriptions
    ghost var sent: seq<Sent>
    ghost var registered: map<Id, Registration>
    ghost var gone: set<Id>

    ghost function View(): World
      reads this
    {
      World(listeners, sent, registered, gone)
    }

    constructor ()
      ensures View() == NEW_WORLD
    {
      listeners, sent, registered, gone := map[], [], map[], {};
    }

    method AddListener(id: Id, m: Method, kind: Kind)
      modifies this
      ensures View() == Step(old(View()), Add(id, m, kind))
    {
      var subs := Of(listeners, m);
      listeners := listeners[m := subs + [Listener(id, kind, [], [])]];
      registered := registered[id := Registration(m, kind, |sent|)];
    }

    /** Queues the event at every listener of the method that is to have it. */
    method QueueAtAll(m: Method, customOnly: bool, event: Event)
      modifies this
      ensures View() == AfterSend(old(View()), Sent(m, customOnly, event))
    {
      if m in listeners {
        var subs := listeners[m];
        ghost var before := subs;
        for i := 0 to |subs|
          invariant |subs| == |before|
          invariant forall k | 0 <= k < i :: subs[k] == Queued(before[k], customOnly, event)
          invariant forall k | i <= k < |subs| :: subs[k] == before[k]
        {
          if !customOnly || subs[i].kind.Custom? {
            subs := subs[i := subs[i].(queued := subs[i].queued + [event])];
          }
        }
        assert subs == QueuedAll(before, customOnly, event);
        listeners := listeners[m := subs];
      }
      sent := sent + [Sent(m, customOnly, event)];
    }

    method StartSend(m: Method, event: Event)
      modifies this
      ensures View() == Step(old(View()), Send(m, event))
    {
      QueueAtAll(m, false, event);
    }

    method FindConverter(subs: seq<Listener>) returns (found: Option<Converter>)
      ensures found == FirstConverter(subs)
    {
      for i := 0 to |subs|
        invariant FirstConverter(subs) == FirstConverter(subs[i..])
      {
        assert subs[i..][1..] == subs[i + 1..];
        if subs[i].kind.Custom? { return Some(subs[i].kind.conv); }
      }
      found := None;
    }

    method TrySendCustom(m: Method, value: Json, accepts: Converter -> bool) returns (ok: bool)
      modifies this
      ensures View() == Step(old(View()), SendCustom(m, value, accepts))
      ensures !ok <==> FirstConverter(Of(old(listeners), m)).Some?
                       && !accepts(FirstConverter(Of(old(listeners), m)).value)
    {
      ok := true;
      if m in listeners {
        var conv := FindConverter(listeners[m]);
        if conv.Some? {
          if !accepts(conv.value) { return false; }
          QueueAtAll(m, true, Converted(conv.value, value));
        }
      }
    }

    /** One pass over the listeners of one method. */
    method PollSubscriptions(subs0: seq<Listener>, links: Id -> Link) returns (subs: seq<Listener>)
      ensures subs == Passed(Visits(subs0, links))
    {
      ghost var visits := Visits(subs0, links);
      subs := subs0;
      var n := |subs|;
      while n > 0
        invariant 0 <= n <= |subs0|
        invariant subs == subs0[..n] + Passed(visits[n..])
      {
        n := n - 1;
        TurnOfPass(subs0, n, visits);
        var sub, result := PollListener(subs[n], links(subs[n].id));
        subs := SwapRemoved(subs, n);
        if !result.Disconnected? { subs := subs + [sub]; }
      }
      assert visits[0..] == visits;
    }

    method PassOverAll(links: Id -> Link)
      modifies this`listeners
      ensures HalfPolled(old(listeners), listeners, {}, links)
    {
      var todo := listeners.Keys;
      while todo != {}
        invariant todo <= listeners.Keys && HalfPolled(old(listeners), listeners, todo, links)
        decreases |todo|
      {
        var m :| m in todo;
        todo := todo - {m};
        var subs := PollSubscriptions(listeners[m], links);
        listeners := listeners[m := subs];
      }
    }

    /** Drains every queue and forgets the listeners whose receiver is gone. */
    method Poll(links: Id -> Link)
      modifies this
      ensures View() == Step(old(View()), Input.Poll(links))
    {
      PassOverAll(links);
      gone := gone + Lost(old(listeners), links);
      assert listeners == Step(old(View()), Input.Poll(links)).subs;
    }
  }
}

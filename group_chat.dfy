/**
 * The group chat of src/hooks/useGroupChat.ts: one message goes to every
 * online accessible entity, the verdicts are handled one by one in entity
 * order, strikes raise the cooldown to a maximum, empty replies are
 * dropped, and a turn with a strike or a tampering flag ends with the
 * transcript sorted by timestamp.
 */
module GroupChatHook {
  import opened Wrappers
  import opened JsString
  import opened Json
  import opened Records
  import opened SecureStorage
  import opened AppLogic
  import opened AppComponent
  import opened ChatHook

  const GROUP_HISTORY_KEY: JsString := Str("chat_history_group")

  /** The online entities among the accessible ones, in order. */
  function OnlineOf(es: seq<Entity>): (r: seq<Entity>)
    ensures |r| <= |es|
    ensures forall e :: e in r ==> e in es && e.status == Online
    ensures forall e :: e in es && e.status == Online ==> e in r
  {
    if |es| == 0 then []
    else OnlineOf(es[..|es| - 1]) + (if es[|es| - 1].status == Online then [es[|es| - 1]] else [])
  }

  /** One entity is kept exactly when it is online. */
  lemma OnlineOfOne(e: Entity)
    ensures OnlineOf([e]) == if e.status == Online then [e] else []
  {
    assert [e][..0] == [];
  }

  /** `filter` keeps the order: the online entities of a concatenation are those of each part in turn. */
  lemma {:induction false} OnlineOfAppend(a: seq<Entity>, b: seq<Entity>)
    ensures OnlineOf(a + b) == OnlineOf(a) + OnlineOf(b)
    decreases |b|
  {
    if |b| == 0 {
      assert a + b == a;
    } else {
      var b', x := b[..|b| - 1], b[|b| - 1];
      var tail := if x.status == Online then [x] else [];
      assert (a + b)[..|a + b| - 1] == a + b' && (a + b)[|a + b| - 1] == x;
      calc {
        OnlineOf(a + b);
        OnlineOf(a + b') + tail;
        { OnlineOfAppend(a, b'); }
        (OnlineOf(a) + OnlineOf(b')) + tail;
        OnlineOf(a) + (OnlineOf(b') + tail);
        OnlineOf(a) + OnlineOf(b);
      }
    }
  }

  /** The notice of a strike caused by one entity's reply. */
  function GroupStrikeNotice(n: int, name: JsString): (r: JsString)
  {
    Str("STRIKE ") + Signed(n, 10) + Str(" INCURRED DUE TO RESPONSE FROM ") + name + Str(".")
  }

  /**
   * `Promise.all` over the online entities: one verdict per entity, the
   * i-th for the i-th entity whatever order the requests finish in.
   */
  function Verdicts(u: User, online: seq<Entity>, current: seq<ChatMessage>, lastWasStrike: bool,
                    respond: Responder): (r: seq<Verdict>)
    ensures |r| == |online|
    ensures forall i :: 0 <= i < |online| ==> r[i] == respond(u, online[i], current, lastWasStrike)
  {
    seq(|online|, i requires 0 <= i < |online| => respond(u, online[i], current, lastWasStrike))
  }

  // ---------------------------------------------------------------------
  // One turn, response by response
  // ---------------------------------------------------------------------

  function Max(a: nat, b: nat): nat {
    if a < b then b else a
  }

  /** The cooldown after a strike: raised to at least 30 s after the first, 60 s after the second. */
  function RaiseCooldown(n: int, current: nat): (r: nat)
  {
    if n == 1 then Max(current, COOLDOWN_FIRST) else if n == 2 then Max(current, COOLDOWN_SECOND) else current
  }

  /** Nothing but white space, which is what an empty `trim()` means. */
  predicate Blank(s: JsString) {
    forall i :: 0 <= i < |s| ==> IsJsWhiteSpace(s[i])
  }

  /** The messages one response adds: a strike notice, the reply when it is not blank, or nothing. */
  function Contribution(u: User, entity: Entity, verdict: Verdict, now: int): (r: seq<ChatMessage>)
  {
    match verdict
    case SuspectedTampering => []
    case ConsentViolation(_) => [ChatMessage(SYSTEM_SENDER, GroupStrikeNotice(u.strikes + 1, entity.name), now, true)]
    case Reply(text) => if !Blank(text) then [ChatMessage(entity.name, text, now, false)] else []
  }

  /** The messages the responses add, in entity order. */
  function Contributions(u: User, es: seq<Entity>, vs: seq<Verdict>, now: int): (r: seq<ChatMessage>)
    requires |es| == |vs|
  {
    if |es| == 0 then []
    else Contributions(u, es[..|es| - 1], vs[..|vs| - 1], now) + Contribution(u, es[|es| - 1], vs[|vs| - 1], now)
  }

  /**
   * What one response does to the App: tampering calls the tamper handler;
   * a violation saves the user of the turn's start with one more strike
   * (every violation of a turn computes the same count) and calls the
   * strike-three handler from the third strike on; a reply does nothing.
   */
  function React(w: World, u: User, verdict: Verdict, now: int): (r: World)
  {
    match verdict
    case SuspectedTampering => TerminateStep(w)
    case ConsentViolation(_) => StrikeWorld(w, u, now)
    case Reply(_) => w
  }

  /** A violation: the stale record saved with one more strike, then the strike-three handler from the third on. */
  function StrikeWorld(w: World, u: User, now: int): (r: World)
  {
    var w1 := Save(w, Some(Struck(u, now)));
    if u.strikes + 1 >= 3 then TerminateStep(w1) else w1
  }

  /** The App after the responses, handled in order. */
  function ReactAll(w: World, u: User, vs: seq<Verdict>, now: int): (r: World)
  {
    if |vs| == 0 then w else React(ReactAll(w, u, vs[..|vs| - 1], now), u, vs[|vs| - 1], now)
  }

  /** The cooldown after one response. */
  function CooldownFor(c: nat, u: User, verdict: Verdict): (r: nat)
  {
    if verdict.ConsentViolation? then RaiseCooldown(u.strikes + 1, c) else c
  }

  /** The cooldown after the responses. */
  function CooldownAll(c: nat, u: User, vs: seq<Verdict>): (r: nat)
  {
    if |vs| == 0 then c else CooldownFor(CooldownAll(c, u, vs[..|vs| - 1]), u, vs[|vs| - 1])
  }

  /** All responses are ordinary replies: neither tampering nor a violation raised the strike flag. */
  predicate AllReplies(vs: seq<Verdict>) {
    forall i :: 0 <= i < |vs| ==> vs[i].Reply?
  }

  lemma AllRepliesSnoc(vs: seq<Verdict>, v: Verdict)
    ensures AllReplies(vs + [v]) <==> AllReplies(vs) && v.Reply?
  {
    if !AllReplies(vs) {
      var i :| 0 <= i < |vs| && !vs[i].Reply?;
      assert (vs + [v])[i] == vs[i];
    }
    assert (vs + [v])[|vs|] == v;
  }

  /**
   * However many entities object in one turn, the cooldown ends as if one
   * had: raised once for the stale strike count, never shortened.
   */
  lemma {:induction false} CooldownIsMaximum(c: nat, u: User, vs: seq<Verdict>)
    ensures (forall i :: 0 <= i < |vs| ==> !vs[i].ConsentViolation?) ==> CooldownAll(c, u, vs) == c
    ensures (exists i :: 0 <= i < |vs| && vs[i].ConsentViolation?) ==> CooldownAll(c, u, vs) == RaiseCooldown(u.strikes + 1, c)
    ensures CooldownAll(c, u, vs) >= c
  {
    if |vs| > 0 {
      var last := |vs| - 1;
      CooldownIsMaximum(c, u, vs[..last]);
      assert forall i :: 0 <= i < last ==> vs[..last][i] == vs[i];
    }
  }

  /** One response leaves the session's user alone, except that a violation saves the stale record with one more strike. */
  lemma ReactUser(w: World, u: User, verdict: Verdict, now: int)
    ensures verdict.ConsentViolation? ==> React(w, u, verdict, now).state.user == Some(SortIds(Struck(u, now)))
    ensures !verdict.ConsentViolation? ==> React(w, u, verdict, now).state.user == w.state.user
  {
    match verdict
    case SuspectedTampering =>
      TerminateWipesIff(w);
    case ConsentViolation(_) =>
      var w1 := Save(w, Some(Struck(u, now)));
      assert w1.state.user == Some(SortIds(Struck(u, now)));
      TerminateWipesIff(w1);
      assert React(w, u, verdict, now) == StrikeWorld(w, u, now);
    case Reply(_) =>
  }

  /**
   * Strikes come from the stale record of the turn's start: whatever the
   * number of violations, the session's user after the responses is the one
   * before them or that record with exactly one more strike, the latter
   * whenever some entity objected.
   */
  lemma {:induction false} StaleStrikes(w: World, u: User, vs: seq<Verdict>, now: int)
    ensures ReactAll(w, u, vs, now).state.user == w.state.user ||
            ReactAll(w, u, vs, now).state.user == Some(SortIds(Struck(u, now)))
    ensures (exists i :: 0 <= i < |vs| && vs[i].ConsentViolation?) ==>
              ReactAll(w, u, vs, now).state.user == Some(SortIds(Struck(u, now)))
  {
    if |vs| > 0 {
      var last := |vs| - 1;
      StaleStrikes(w, u, vs[..last], now);
      ReactUser(ReactAll(w, u, vs[..last], now), u, vs[last], now);
      if exists i :: 0 <= i < |vs| && vs[i].ConsentViolation? {
        var i :| 0 <= i < |vs| && vs[i].ConsentViolation?;
        if i < last {
          assert vs[..last][i].ConsentViolation?;
        }
      }
    }
  }

  /** Every strike notice of a turn names an entity of the turn and carries the turn's stale count plus one. */
  lemma {:induction false} NoticesShareCount(u: User, es: seq<Entity>, vs: seq<Verdict>, now: int, k: nat)
    requires |es| == |vs|
    requires k < |Contributions(u, es, vs, now)| && Contributions(u, es, vs, now)[k].isStrikeMessage
    ensures exists e :: e in es && Contributions(u, es, vs, now)[k].content == GroupStrikeNotice(u.strikes + 1, e.name)
  {
    var last := |es| - 1;
    var before := Contributions(u, es[..last], vs[..last], now);
    if k < |before| {
      NoticesShareCount(u, es[..last], vs[..last], now, k);
      var e :| e in es[..last] && before[k].content == GroupStrikeNotice(u.strikes + 1, e.name);
      assert Contributions(u, es, vs, now)[k] == before[k];
    } else {
      assert Contributions(u, es, vs, now)[k] == Contribution(u, es[last], vs[last], now)[k - |before|];
      assert es[last] in es;
    }
  }

  /**
   * Attribution: every ordinary message a turn adds is the non-blank reply
   * of one of the turn's entities, under that entity's name, stamped with
   * the turn's response time.
   */
  lemma {:induction false} RepliesAttributed(u: User, es: seq<Entity>, vs: seq<Verdict>, now: int, k: nat)
    requires |es| == |vs|
    requires k < |Contributions(u, es, vs, now)| && !Contributions(u, es, vs, now)[k].isStrikeMessage
    ensures var m := Contributions(u, es, vs, now)[k];
      && m.timestamp == now && !Blank(m.content)
      && exists j :: 0 <= j < |es| && vs[j] == Reply(m.content) && m.sender == es[j].name
  {
    var last := |es| - 1;
    var before := Contributions(u, es[..last], vs[..last], now);
    if k < |before| {
      RepliesAttributed(u, es[..last], vs[..last], now, k);
      var j :| 0 <= j < last && vs[..last][j] == Reply(before[k].content) && before[k].sender == es[..last][j].name;
      assert Contributions(u, es, vs, now)[k] == before[k];
      assert vs[j] == vs[..last][j] && es[j] == es[..last][j];
    } else {
      assert Contributions(u, es, vs, now)[k] == Contribution(u, es[last], vs[last], now)[k - |before|];
    }
  }

  /** A blank reply adds nothing to the transcript; a non-blank one adds exactly itself. */
  lemma BlankReplyAddsNothing(u: User, entity: Entity, text: JsString, now: int)
    ensures Trim(text) == [] ==> Contribution(u, entity, Reply(text), now) == []
    ensures Trim(text) != [] ==> Contribution(u, entity, Reply(text), now) == [ChatMessage(entity.name, text, now, false)]
  {
  }

  // ---------------------------------------------------------------------
  // The timestamp sort
  // ---------------------------------------------------------------------

  predicate TimeOrdered(s: seq<ChatMessage>) {
    forall i, j :: 0 <= i < j < |s| ==> s[i].timestamp <= s[j].timestamp
  }

  /** x placed after the last message not later than it. */
  function InsertByTime(s: seq<ChatMessage>, x: ChatMessage): (r: seq<ChatMessage>)
  {
    if |s| == 0 || s[|s| - 1].timestamp <= x.timestamp then s + [x]
    else InsertByTime(s[..|s| - 1], x) + [s[|s| - 1]]
  }

  /** `sort((a, b) => a.timestamp - b.timestamp)`, which is stable. */
  function SortByTime(s: seq<ChatMessage>): (r: seq<ChatMessage>)
  {
    if |s| == 0 then [] else InsertByTime(SortByTime(s[..|s| - 1]), s[|s| - 1])
  }

  lemma {:induction false} InsertByTimeMultiset(s: seq<ChatMessage>, x: ChatMessage)
    ensures multiset(InsertByTime(s, x)) == multiset(s) + multiset{x}
  {
    if |s| > 0 && s[|s| - 1].timestamp > x.timestamp {
      InsertByTimeMultiset(s[..|s| - 1], x);
      assert s == s[..|s| - 1] + [s[|s| - 1]];
    }
  }

  lemma {:induction false} InsertByTimeOrdered(s: seq<ChatMessage>, x: ChatMessage)
    requires TimeOrdered(s)
    ensures TimeOrdered(InsertByTime(s, x))
    ensures |InsertByTime(s, x)| == |s| + 1
    ensures forall m :: m in InsertByTime(s, x) ==> m in s || m == x
  {
    if |s| > 0 && s[|s| - 1].timestamp > x.timestamp {
      var init := s[..|s| - 1];
      InsertByTimeOrdered(init, x);
      var r := InsertByTime(init, x);
      forall m | m in r ensures m.timestamp <= s[|s| - 1].timestamp {
        if m != x {
          var i :| 0 <= i < |init| && init[i] == m;
          assert s[i] == m;
        }
      }
      assert forall i :: 0 <= i < |r| ==> r[i] in r;
    }
  }

  /** The sort orders by timestamp and only permutes the messages. */
  lemma {:induction false} SortByTimeCorrect(s: seq<ChatMessage>)
    ensures TimeOrdered(SortByTime(s))
    ensures multiset(SortByTime(s)) == multiset(s)
  {
    if |s| > 0 {
      var init := s[..|s| - 1];
      SortByTimeCorrect(init);
      InsertByTimeOrdered(SortByTime(init), s[|s| - 1]);
      InsertByTimeMultiset(SortByTime(init), s[|s| - 1]);
      assert s == init + [s[|s| - 1]];
    }
  }

  /** The messages of a transcript stamped at time T, in transcript order. */
  function AtTime(s: seq<ChatMessage>, t: int): (r: seq<ChatMessage>)
  {
    if |s| == 0 then []
    else AtTime(s[..|s| - 1], t) + (if s[|s| - 1].timestamp == t then [s[|s| - 1]] else [])
  }

  lemma AtTimeAppend(s: seq<ChatMessage>, x: ChatMessage, t: int)
    ensures AtTime(s + [x], t) == AtTime(s, t) + (if x.timestamp == t then [x] else [])
  {
    assert (s + [x])[..|s|] == s;
  }

  lemma {:induction false} InsertAtTime(s: seq<ChatMessage>, x: ChatMessage, t: int)
    requires TimeOrdered(s)
    ensures AtTime(InsertByTime(s, x), t) == AtTime(s, t) + (if x.timestamp == t then [x] else [])
  {
    if |s| == 0 || s[|s| - 1].timestamp <= x.timestamp {
      AtTimeAppend(s, x, t);
    } else {
      var init := s[..|s| - 1];
      var last := s[|s| - 1];
      OrderedPrefix(s);
      InsertAtTime(init, x, t);
      AtTimeAppend(InsertByTime(init, x), last, t);
      var xs: seq<ChatMessage> := if x.timestamp == t then [x] else [];
      var ls: seq<ChatMessage> := if last.timestamp == t then [last] else [];
      assert xs == [] || ls == [];
      assert AtTime(InsertByTime(s, x), t) == AtTime(init, t) + xs + ls;
      assert AtTime(s, t) == AtTime(init, t) + ls;
    }
  }

  lemma OrderedPrefix(s: seq<ChatMessage>)
    requires TimeOrdered(s) && |s| > 0
    ensures TimeOrdered(s[..|s| - 1])
  {
    var p := s[..|s| - 1];
    forall i, j | 0 <= i < j < |p| ensures p[i].timestamp <= p[j].timestamp {
      assert p[i] == s[i] && p[j] == s[j];
    }
  }

  /** The sort is stable: messages with the same timestamp keep their relative order. */
  lemma {:induction false} SortByTimeStable(s: seq<ChatMessage>, t: int)
    ensures AtTime(SortByTime(s), t) == AtTime(s, t)
  {
    if |s| > 0 {
      var init, last := s[..|s| - 1], s[|s| - 1];
      var ls: seq<ChatMessage> := if last.timestamp == t then [last] else [];
      calc {
        AtTime(SortByTime(s), t);
        AtTime(InsertByTime(SortByTime(init), last), t);
        { SortByTimeCorrect(init); InsertAtTime(SortByTime(init), last, t); }
        AtTime(SortByTime(init), t) + ls;
        { SortByTimeStable(init, t); }
        AtTime(init, t) + ls;
        AtTime(s, t);
      }
    }
  }

  // ---------------------------------------------------------------------
  // Sending a message to the group
  // ---------------------------------------------------------------------

  /** The transcript a turn ends with: sorted by timestamp when a strike or tamper flag was raised. */
  function Finished(collected: seq<ChatMessage>, vs: seq<Verdict>): (r: seq<ChatMessage>)
  {
    if AllReplies(vs) then collected else SortByTime(collected)
  }

  /** `sendMessage(content)` of the group chat over the accessible entities. */
  function GroupSendStep(w: World, c: ChatState, accessible: seq<Entity>, content: JsString,
                         respond: Responder, sentAt: int, now: int): (r: Sent)
    requires w.state.user.Some?
    ensures r.chat.cooldown >= c.cooldown
    ensures r.world.state.user.Some?
    ensures w.state.user.value.strikes <= r.world.state.user.value.strikes <= w.state.user.value.strikes + 1
  {
    var u := w.state.user.value;
    var online := OnlineOf(accessible);
    if !MaySend(c.cooldown, u) || |online| == 0 then Sent(w, c)
    else
      var current := c.messages + [ChatMessage(USER_SENDER, content, sentAt, false)];
      var verdicts := Verdicts(u, online, current, LastWasStrike(c.messages), respond);
      StaleStrikes(w, u, verdicts, now);
      CooldownIsMaximum(c.cooldown, u, verdicts);
      GroupTurn(w, c.cooldown, u, online, current, verdicts, now)
  }

  /**
   * A turn past the gate, once every verdict is in: the reactions in entity
   * order, the collected messages (time-sorted after a strike), the saved
   * transcript and the largest cooldown.
   */
  function GroupTurn(w: World, cooldown: nat, u: User, online: seq<Entity>, current: seq<ChatMessage>,
                     verdicts: seq<Verdict>, now: int): (r: Sent)
    requires |online| == |verdicts|
  {
    var w2 := ReactAll(w, u, verdicts, now);
    var final := Finished(current + Contributions(u, online, verdicts, now), verdicts);
    Sent(w2.(items := SetItemMap(w2.items, GROUP_HISTORY_KEY, HistoryText(final))),
         ChatState(final, false, CooldownAll(cooldown, u, verdicts)))
  }

  /** While the cooldown runs, after three strikes, or with no entity online, a send changes nothing. */
  lemma GroupGateBlocks(w: World, c: ChatState, accessible: seq<Entity>, content: JsString,
                        respond: Responder, sentAt: int, now: int)
    requires w.state.user.Some?
    requires c.cooldown > 0 || w.state.user.value.strikes >= 3 || forall e :: e in accessible ==> e.status != Online
    ensures GroupSendStep(w, c, accessible, content, respond, sentAt, now) == Sent(w, c)
  {
    var online := OnlineOf(accessible);
    if |online| > 0 {
      assert online[0] in online;
    }
  }

  /**
   * A turn that passes the gate ends with the messages before it, the
   * user's message and each response's contribution: in entity order when
   * every response was a reply, and otherwise sorted by timestamp, as a
   * permutation that keeps messages with equal timestamps in order.
   */
  lemma GroupTranscript(w: World, c: ChatState, accessible: seq<Entity>, content: JsString,
                        respond: Responder, sentAt: int, now: int)
    requires w.state.user.Some? && MaySend(c.cooldown, w.state.user.value)
    requires exists e :: e in accessible && e.status == Online
    ensures var u := w.state.user.value;
            var online := OnlineOf(accessible);
            var current := c.messages + [ChatMessage(USER_SENDER, content, sentAt, false)];
            var verdicts := Verdicts(u, online, current, LastWasStrike(c.messages), respond);
            var collected := current + Contributions(u, online, verdicts, now);
            var r := GroupSendStep(w, c, accessible, content, respond, sentAt, now);
      && multiset(r.chat.messages) == multiset(collected)
      && (AllReplies(verdicts) ==> r.chat.messages == collected)
      && (!AllReplies(verdicts) ==> TimeOrdered(r.chat.messages))
      && (forall t :: AtTime(r.chat.messages, t) == AtTime(collected, t))
      && !r.chat.isLoading
  {
    var u := w.state.user.value;
    var online := OnlineOf(accessible);
    var e :| e in accessible && e.status == Online;
    assert e in online;
    var current := c.messages + [ChatMessage(USER_SENDER, content, sentAt, false)];
    var verdicts := Verdicts(u, online, current, LastWasStrike(c.messages), respond);
    var collected := current + Contributions(u, online, verdicts, now);
    SortByTimeCorrect(collected);
    forall t | true ensures AtTime(SortByTime(collected), t) == AtTime(collected, t) {
      SortByTimeStable(collected, t);
    }
  }

  /** Past the gate, a send is the turn over the online entities and their verdicts. */
  lemma PastGate(w: World, c: ChatState, accessible: seq<Entity>, content: JsString,
                 respond: Responder, sentAt: int, now: int)
    requires w.state.user.Some? && MaySend(c.cooldown, w.state.user.value)
    requires exists e :: e in accessible && e.status == Online
    ensures var u := w.state.user.value;
            var online := OnlineOf(accessible);
            var current := c.messages + [ChatMessage(USER_SENDER, content, sentAt, false)];
      GroupSendStep(w, c, accessible, content, respond, sentAt, now)
        == GroupTurn(w, c.cooldown, u, online, current, Verdicts(u, online, current, LastWasStrike(c.messages), respond), now)
  {
    var e :| e in accessible && e.status == Online;
    assert e in OnlineOf(accessible);
  }

  /**
   * A turn that passes the gate raises the cooldown once to 30 s or 60 s
   * by the stale strike count when some entity objected, however many did,
   * and otherwise keeps it.
   */
  lemma GroupCooldown(w: World, c: ChatState, accessible: seq<Entity>, content: JsString,
                      respond: Responder, sentAt: int, now: int)
    requires w.state.user.Some? && MaySend(c.cooldown, w.state.user.value)
    requires exists e :: e in accessible && e.status == Online
    ensures var u := w.state.user.value;
            var online := OnlineOf(accessible);
            var current := c.messages + [ChatMessage(USER_SENDER, content, sentAt, false)];
            var verdicts := Verdicts(u, online, current, LastWasStrike(c.messages), respond);
            var r := GroupSendStep(w, c, accessible, content, respond, sentAt, now);
      && ((exists i :: 0 <= i < |verdicts| && verdicts[i].ConsentViolation?) ==>
            r.chat.cooldown == RaiseCooldown(u.strikes + 1, c.cooldown))
      && ((forall i :: 0 <= i < |verdicts| ==> !verdicts[i].ConsentViolation?) ==> r.chat.cooldown == c.cooldown)
  {
    var u := w.state.user.value;
    var online := OnlineOf(accessible);
    var current := c.messages + [ChatMessage(USER_SENDER, content, sentAt, false)];
    var verdicts := Verdicts(u, online, current, LastWasStrike(c.messages), respond);
    PastGate(w, c, accessible, content, respond, sentAt, now);
    TurnCooldown(w, c.cooldown, u, online, current, verdicts, now);
  }

  lemma TurnCooldown(w: World, cooldown: nat, u: User, online: seq<Entity>, current: seq<ChatMessage>,
                     verdicts: seq<Verdict>, now: int)
    requires |online| == |verdicts|
    ensures (exists i :: 0 <= i < |verdicts| && verdicts[i].ConsentViolation?) ==>
              GroupTurn(w, cooldown, u, online, current, verdicts, now).chat.cooldown == RaiseCooldown(u.strikes + 1, cooldown)
    ensures (forall i :: 0 <= i < |verdicts| ==> !verdicts[i].ConsentViolation?) ==>
              GroupTurn(w, cooldown, u, online, current, verdicts, now).chat.cooldown == cooldown
  {
    CooldownIsMaximum(cooldown, u, verdicts);
  }

  /** A turn that passes the gate writes its transcript to storage last, so it survives a wipe during the turn. */
  lemma GroupHistorySaved(w: World, c: ChatState, accessible: seq<Entity>, content: JsString,
                          respond: Responder, sentAt: int, now: int)
    requires w.state.user.Some? && MaySend(c.cooldown, w.state.user.value)
    requires exists e :: e in accessible && e.status == Online
    ensures var r := GroupSendStep(w, c, accessible, content, respond, sentAt, now);
      Latin1(HistoryText(r.chat.messages)) ==>
        Stored(r.world.items, GROUP_HISTORY_KEY) == Some(HistoryText(r.chat.messages))
  {
    var u := w.state.user.value;
    var online := OnlineOf(accessible);
    var current := c.messages + [ChatMessage(USER_SENDER, content, sentAt, false)];
    var verdicts := Verdicts(u, online, current, LastWasStrike(c.messages), respond);
    PastGate(w, c, accessible, content, respond, sentAt, now);
    var w2 := ReactAll(w, u, verdicts, now);
    var final := Finished(current + Contributions(u, online, verdicts, now), verdicts);
    if Latin1(HistoryText(final)) {
      GetAfterSet(w2.items, GROUP_HISTORY_KEY, HistoryText(final));
    }
  }

  /** How each of the response loop's folds grows by one response. */
  lemma FoldsStep(w: World, c: nat, u: User, es: seq<Entity>, vs: seq<Verdict>, now: int, i: nat)
    requires |es| == |vs| && i < |vs|
    ensures ReactAll(w, u, vs[..i + 1], now) == React(ReactAll(w, u, vs[..i], now), u, vs[i], now)
    ensures Contributions(u, es[..i + 1], vs[..i + 1], now) == Contributions(u, es[..i], vs[..i], now) + Contribution(u, es[i], vs[i], now)
    ensures CooldownAll(c, u, vs[..i + 1]) == CooldownFor(CooldownAll(c, u, vs[..i]), u, vs[i])
    ensures AllReplies(vs[..i + 1]) <==> AllReplies(vs[..i]) && vs[i].Reply?
  {
    assert es[..i + 1][..i] == es[..i];
    assert vs[..i + 1][..i] == vs[..i];
    assert vs[..i + 1] == vs[..i] + [vs[i]];
    AllRepliesSnoc(vs[..i], vs[i]);
  }

  // ---------------------------------------------------------------------
  // The hook as a class
  // ---------------------------------------------------------------------

  /** The mounted group chat, reporting to the App it is rendered by. */
  class GroupChat {
    const app: App
    var messages: seq<ChatMessage>
    var isLoading: bool
    var cooldown: nat

    function State(): ChatState
      reads this
    {
      ChatState(messages, isLoading, cooldown)
    }

    constructor(app: App)
      ensures this.app == app && messages == [] && !isLoading && cooldown == 0
    {
      this.app := app;
      messages := [];
      isLoading := false;
      cooldown := 0;
    }

    /** The history-load effect. */
    method LoadHistory()
      modifies this, app.store
      ensures Loaded(app.store.items, messages) == LoadStep(old(app.store.items), GROUP_HISTORY_KEY, old(messages))
      ensures isLoading == old(isLoading) && cooldown == old(cooldown)
    {
      var storedMessages := app.store.GetItem(GROUP_HISTORY_KEY);
      if storedMessages.Some? && storedMessages.value != [] {
        var parsedMessages := ReadHistory(storedMessages.value);
        if parsedMessages.None? {
          app.store.RemoveItem(GROUP_HISTORY_KEY);
        } else {
          messages := parsedMessages.value;
        }
      }
    }

    /** One second of the running cooldown timer. */
    method Tick()
      modifies this
      ensures cooldown == Ticked(old(cooldown))
      ensures messages == old(messages) && isLoading == old(isLoading)
    {
      if cooldown > 0 {
        cooldown := cooldown - 1;
      }
    }

    /** `sendMessage(content)` to the online entities among `accessibleEntities`. */
    method SendMessage(content: JsString, accessibleEntities: seq<Entity>, respond: Responder, sentAt: int, now: int)
      requires app.Valid() && app.state.user.Some?
      modifies this, app, app.store, app.api
      ensures app.Valid()
      ensures Sent(app.W(), State())
                == GroupSendStep(old(app.W()), old(State()), accessibleEntities, content, respond, sentAt, now)
    {
      var user := app.state.user.value;
      if cooldown > 0 || user.strikes >= 3 {
        return;
      }
      var onlineEntities := OnlineOf(accessibleEntities);
      if |onlineEntities| == 0 {
        return;
      }
      StartTurn(user, onlineEntities, content, respond, sentAt, now);
    }

    /** A send past the gate: the user's message is shown, every online entity asked, and the turn run. */
    method StartTurn(user: User, onlineEntities: seq<Entity>, content: JsString, respond: Responder, sentAt: int, now: int)
      requires app.Valid()
      modifies this, app, app.store, app.api
      ensures app.Valid()
      ensures var current := old(messages) + [ChatMessage(USER_SENDER, content, sentAt, false)];
        Sent(app.W(), State())
          == GroupTurn(old(app.W()), old(cooldown), user, onlineEntities, current,
                       Verdicts(user, onlineEntities, current, LastWasStrike(old(messages)), respond), now)
    {
      var current := messages + [ChatMessage(USER_SENDER, content, sentAt, false)];
      var lastInteractionWasStrike := LastWasStrike(messages);
      messages := current;
      isLoading := true;
      var responses := Verdicts(user, onlineEntities, current, lastInteractionWasStrike, respond);
      RunTurn(user, onlineEntities, responses, now);
    }

    /** The turn once the verdicts are in, from the transcript with the user's message. */
    method RunTurn(user: User, onlineEntities: seq<Entity>, responses: seq<Verdict>, now: int)
      requires app.Valid() && |onlineEntities| == |responses|
      modifies this, app, app.store, app.api
      ensures app.Valid()
      ensures Sent(app.W(), State()) == GroupTurn(old(app.W()), old(cooldown), user, onlineEntities, old(messages), responses, now)
    {
      var finalMessages, strikesIncurred := HandleResponses(user, onlineEntities, responses, now, messages);
      if strikesIncurred {
        finalMessages := SortByTime(finalMessages);
      }
      Show(finalMessages);
    }

    /** The end of a turn: the transcript shown, saved under the group key, and the spinner cleared. */
    method Show(finalMessages: seq<ChatMessage>)
      requires app.Valid()
      modifies this, app.store
      ensures app.Valid()
      ensures app.W() == old(app.W()).(items := SetItemMap(old(app.W()).items, GROUP_HISTORY_KEY, HistoryText(finalMessages)))
      ensures State() == ChatState(finalMessages, false, old(cooldown))
    {
      messages := finalMessages;
      app.store.SetItem(GROUP_HISTORY_KEY, HistoryText(finalMessages));
      isLoading := false;
    }

    /** The response loop: each verdict in entity order, with the user of the turn's start. */
    method HandleResponses(user: User, onlineEntities: seq<Entity>, responses: seq<Verdict>, now: int,
                           current: seq<ChatMessage>)
      returns (finalMessages: seq<ChatMessage>, strikesIncurred: bool)
      requires app.Valid() && |onlineEntities| == |responses|
      modifies this, app, app.store, app.api
      ensures app.Valid()
      ensures app.W() == ReactAll(old(app.W()), user, responses, now)
      ensures finalMessages == current + Contributions(user, onlineEntities, responses, now)
      ensures cooldown == CooldownAll(old(cooldown), user, responses)
      ensures strikesIncurred == !AllReplies(responses)
      ensures messages == old(messages) && isLoading == old(isLoading)
    {
      finalMessages := current;
      strikesIncurred := false;
      var i := 0;
      while i < |onlineEntities|
        invariant 0 <= i <= |onlineEntities|
        invariant app.Valid()
        invariant app.W() == ReactAll(old(app.W()), user, responses[..i], now)
        invariant finalMessages == current + Contributions(user, onlineEntities[..i], responses[..i], now)
        invariant cooldown == CooldownAll(old(cooldown), user, responses[..i])
        invariant strikesIncurred == !AllReplies(responses[..i])
        invariant messages == old(messages) && isLoading == old(isLoading)
      {
        FoldsStep(old(app.W()), old(cooldown), user, onlineEntities, responses, now, i);
        finalMessages, strikesIncurred := HandleResponse(user, onlineEntities[i], responses[i], now, finalMessages, strikesIncurred);
        i := i + 1;
      }
      assert onlineEntities[..i] == onlineEntities;
      assert responses[..i] == responses;
    }

    /** The body of the response loop for one entity's verdict. */
    method HandleResponse(user: User, entity: Entity, verdict: Verdict, now: int,
                          collected: seq<ChatMessage>, incurred: bool)
      returns (collected': seq<ChatMessage>, incurred': bool)
      requires app.Valid()
      modifies this, app, app.store, app.api
      ensures app.Valid()
      ensures app.W() == React(old(app.W()), user, verdict, now)
      ensures collected' == collected + Contribution(user, entity, verdict, now)
      ensures cooldown == CooldownFor(old(cooldown), user, verdict)
      ensures incurred' == (incurred || !verdict.Reply?)
      ensures messages == old(messages) && isLoading == old(isLoading)
    {
      collected', incurred' := collected, incurred;
      match verdict {
        case SuspectedTampering =>
          app.HandleTamperDetection();
          incurred' := true;
        case ConsentViolation(_) =>
          incurred' := true;
          collected' := RecordStrike(user, entity, now, collected);
        case Reply(response) =>
          BlankReplyAddsNothing(user, entity, response, now);
          if Trim(response) != [] {
            collected' := collected + [ChatMessage(entity.name, response, now, false)];
          }
      }
    }

    /** The violation branch of the response loop: the stale record with one more strike, the notice, the cooldown. */
    method RecordStrike(user: User, entity: Entity, now: int, collected: seq<ChatMessage>)
      returns (collected': seq<ChatMessage>)
      requires app.Valid()
      modifies this, app, app.store, app.api
      ensures app.Valid()
      ensures app.W() == StrikeWorld(old(app.W()), user, now)
      ensures collected' == collected + [ChatMessage(SYSTEM_SENDER, GroupStrikeNotice(user.strikes + 1, entity.name), now, true)]
      ensures cooldown == RaiseCooldown(user.strikes + 1, old(cooldown))
      ensures messages == old(messages) && isLoading == old(isLoading)
    {
      var newStrikes := user.strikes + 1;
      app.UpdateUserSession(Some(Struck(user, now)));
      collected' := collected + [ChatMessage(SYSTEM_SENDER, GroupStrikeNotice(newStrikes, entity.name), now, true)];
      if newStrikes == 1 {
        cooldown := Max(cooldown, COOLDOWN_FIRST);
      }
      if newStrikes == 2 {
        cooldown := Max(cooldown, COOLDOWN_SECOND);
      }
      if newStrikes >= 3 {
        app.HandleStrikeThree();
      }
    }
  }
}

/** The event server (websocket/daemon.js): a bounded log of messages, followers that receive every later message in
    their filter, and long pollers that receive the next one. */
module EventLog {
  import opened Prelude

  datatype Message = Message(id: int, channel: string, body: string)

  // ---- the log ----

  datatype Log = Log(queue: seq<Message>, messageId: int)

  /** `messages.post`, as far as the log is concerned. */
  function Post(l: Log, maxQueue: nat, channel: string, body: string): Log {
    var m := Message(l.messageId + 1, channel, body);
    var q := l.queue + [m];
    Log(if |q| > maxQueue then q[1..] else q, m.id)
  }

  /** The log holds the most recent of all messages ever posted, whose ids count up from base. */
  ghost predicate Holds(l: Log, maxQueue: nat, base: int, all: seq<Message>) {
    && (forall i :: 0 <= i < |all| ==> all[i].id == base + 1 + i)
    && l.messageId == base + |all|
    && |l.queue| == (if |all| < maxQueue then |all| else maxQueue)
    && l.queue == all[|all| - |l.queue|..]
  }

  /** The messages the log has dropped. */
  ghost function Dropped(l: Log, all: seq<Message>): seq<Message> {
    if |l.queue| <= |all| then all[..|all| - |l.queue|] else []
  }

  /** later are messages posted after l. */
  ghost predicate Follows(l: Log, later: seq<Message>) {
    forall i :: 0 <= i < |later| ==> later[i].id == l.messageId + 1 + i
  }

  /** No dropped message is in the channels with id above `after`. */
  ghost predicate NoneDropped(l: Log, all: seq<Message>, channels: set<string>, after: int) {
    forall m :: m in Dropped(l, all) ==> !(m.channel in channels && m.id > after)
  }

  lemma PostHolds(l: Log, maxQueue: nat, base: int, all: seq<Message>, channel: string, body: string)
    requires Holds(l, maxQueue, base, all)
    ensures Holds(Post(l, maxQueue, channel, body), maxQueue, base, all + [Message(l.messageId + 1, channel, body)])
  {
    var m := Message(l.messageId + 1, channel, body);
    var q := l.queue + [m];
    assert q == (all + [m])[|all| - |l.queue|..];
  }

  // ---- what a client asks for ----

  /** The messages in the channels with id above `after`, in order. */
  function Matching(ms: seq<Message>, channels: set<string>, after: int): seq<Message> {
    if ms == [] then []
    else
      var n := |ms| - 1;
      Matching(ms[..n], channels, after) + (if ms[n].channel in channels && ms[n].id > after then [ms[n]] else [])
  }

  lemma {:induction false} MatchingConcat(ms: seq<Message>, ns: seq<Message>, channels: set<string>, after: int)
    ensures Matching(ms + ns, channels, after) == Matching(ms, channels, after) + Matching(ns, channels, after)
  {
    if ns == [] {
      assert ms + ns == ms;
    } else {
      var n := |ns| - 1;
      assert (ms + ns)[..|ms + ns| - 1] == ms + ns[..n];
      MatchingConcat(ms, ns[..n], channels, after);
    }
  }

  lemma {:induction false} MatchingMember(ms: seq<Message>, channels: set<string>, after: int, m: Message)
    ensures m in Matching(ms, channels, after) <==> m in ms && m.channel in channels && m.id > after
  {
    if ms != [] {
      var n := |ms| - 1;
      MatchingMember(ms[..n], channels, after, m);
      assert ms == ms[..n] + [ms[n]];
    }
  }

  ghost predicate Rising(ms: seq<Message>) {
    forall i, j :: 0 <= i < j < |ms| ==> ms[i].id < ms[j].id
  }

  /** What is asked for comes in increasing id order, each message once. */
  lemma {:induction false} MatchingRising(ms: seq<Message>, channels: set<string>, after: int)
    requires Rising(ms)
    ensures Rising(Matching(ms, channels, after))
  {
    if ms != [] {
      var n := |ms| - 1;
      MatchingRising(ms[..n], channels, after);
      var r := Matching(ms[..n], channels, after);
      forall i | 0 <= i < |r| ensures r[i].id < ms[n].id {
        MatchingMember(ms[..n], channels, after, r[i]);
      }
    }
  }

  lemma {:induction false} MatchingSame(ms: seq<Message>, channels: set<string>, a: int, b: int)
    requires forall m :: m in ms ==> (m.id > a <==> m.id > b)
    ensures Matching(ms, channels, a) == Matching(ms, channels, b)
  {
    if ms != [] {
      var n := |ms| - 1;
      assert ms[n] in ms;
      MatchingSame(ms[..n], channels, a, b);
    }
  }

  // ---- followers ----

  datatype Follow = Follow(lastMsg: int, filter: set<string>, sent: seq<Message>)

  /** `got_message` of a follower; the filter is all that `in` finds on its filter object. */
  function Got(f: Follow, m: Message): Follow {
    Follow(m.id, f.filter, if m.channel in f.filter then f.sent + [m] else f.sent)
  }

  function GotAll(f: Follow, ms: seq<Message>): Follow {
    if ms == [] then f else Got(GotAll(f, ms[..|ms| - 1]), ms[|ms| - 1])
  }

  /** `catch_up`: every logged message above the follower's position, which moves along. */
  function CatchUp(q: seq<Message>, f: Follow): Follow {
    if q == [] then f
    else
      var g := CatchUp(q[..|q| - 1], f);
      var m := q[|q| - 1];
      if m.id > g.lastMsg then Got(g, m) else g
  }

  lemma {:induction false} CatchUpSends(q: seq<Message>, f: Follow)
    requires Rising(q)
    ensures CatchUp(q, f).sent == f.sent + Matching(q, f.filter, f.lastMsg)
    ensures CatchUp(q, f).filter == f.filter
    ensures CatchUp(q, f).lastMsg == if q != [] && q[|q| - 1].id > f.lastMsg then q[|q| - 1].id else f.lastMsg
  {
    if q != [] { CatchUpSends(q[..|q| - 1], f); }
  }

  lemma {:induction false} GotAllSends(f: Follow, ms: seq<Message>, after: int)
    requires forall m :: m in ms ==> m.id > after
    ensures GotAll(f, ms).sent == f.sent + Matching(ms, f.filter, after)
    ensures GotAll(f, ms).filter == f.filter
  {
    if ms != [] {
      var n := |ms| - 1;
      assert ms[n] in ms;
      GotAllSends(f, ms[..n], after);
    }
  }

  /** What a socket has received that set its position to `start`, then its filter while the log was l, and has followed
      the messages `later` posted since. */
  function Received(l: Log, start: int, filter: set<string>, later: seq<Message>): seq<Message> {
    GotAll(CatchUp(l.queue, Follow(start, filter, [])), later).sent
  }

  lemma HoldsSplit(l: Log, maxQueue: nat, base: int, all: seq<Message>)
    requires Holds(l, maxQueue, base, all)
    ensures Rising(all) && Rising(l.queue)
    ensures all == Dropped(l, all) + l.queue
  {}

  lemma LaterAbove(l: Log, later: seq<Message>)
    requires Follows(l, later)
    ensures forall m :: m in later ==> m.id > l.messageId
  {}

  lemma FollowsRising(l: Log, maxQueue: nat, base: int, all: seq<Message>, later: seq<Message>)
    requires Holds(l, maxQueue, base, all) && Follows(l, later)
    ensures Rising(all + later)
  {
    assert forall i :: 0 <= i < |all + later| ==> (all + later)[i].id == base + 1 + i;
  }

  /** In full: the logged messages above start, then everything later, in the filter. */
  lemma ReceivedExactly(l: Log, maxQueue: nat, base: int, all: seq<Message>, start: int, filter: set<string>,
                        later: seq<Message>)
    requires Holds(l, maxQueue, base, all) && Follows(l, later)
    ensures Received(l, start, filter, later)
         == Matching(l.queue, filter, start) + Matching(later, filter, l.messageId)
  {
    hide Holds, Follows, Rising, Matching, CatchUp, GotAll;
    HoldsSplit(l, maxQueue, base, all);
    CatchUpSends(l.queue, Follow(start, filter, []));
    LaterAbove(l, later);
    GotAllSends(CatchUp(l.queue, Follow(start, filter, [])), later, l.messageId);
  }

  /** Everything asked for is what was dropped, what is logged, and what comes later. */
  lemma MatchingParts(l: Log, maxQueue: nat, base: int, all: seq<Message>, channels: set<string>, after: int,
                      later: seq<Message>)
    requires Holds(l, maxQueue, base, all) && Follows(l, later)
    requires after <= l.messageId
    ensures Matching(all + later, channels, after)
         == Matching(Dropped(l, all), channels, after)
            + (Matching(l.queue, channels, after) + Matching(later, channels, l.messageId))
    ensures Matching(later, channels, after) == Matching(later, channels, l.messageId)
    ensures Matching(Dropped(l, all), channels, after) == [] <==> NoneDropped(l, all, channels, after)
  {
    hide Holds, Follows, Rising, Matching, Dropped;
    HoldsSplit(l, maxQueue, base, all);
    var gone := Dropped(l, all);
    MatchingConcat(gone, l.queue, channels, after);
    MatchingConcat(all, later, channels, after);
    LaterAbove(l, later);
    MatchingSame(later, channels, l.messageId, after);
    MatchingNothing(gone, channels, after);
  }

  /** A follower that starts at or below the current id receives exactly the messages in its filter above start, in
      order and once each, if and only if none of them had been dropped before it set its filter. */
  lemma FollowerPromise(l: Log, maxQueue: nat, base: int, all: seq<Message>, start: int, filter: set<string>,
                        later: seq<Message>)
    requires Holds(l, maxQueue, base, all) && Follows(l, later)
    requires start <= l.messageId
    ensures Received(l, start, filter, later) == Matching(all + later, filter, start)
       <==> NoneDropped(l, all, filter, start)
    ensures Rising(Matching(all + later, filter, start))
  {
    hide Holds, Follows, Rising, Matching, Dropped, NoneDropped, Received;
    ReceivedExactly(l, maxQueue, base, all, start, filter, later);
    MatchingParts(l, maxQueue, base, all, filter, start, later);
    FollowsRising(l, maxQueue, base, all, later);
    MatchingRising(all + later, filter, start);
    var gone, rest := Matching(Dropped(l, all), filter, start), Received(l, start, filter, later);
    assert gone + rest == rest <==> gone == [] by {
      assert |gone + rest| == |gone| + |rest|;
    }
  }

  // ---- inherited names ----

  /** No message above `after` is on a channel that only every object's inherited names let through. */
  ghost predicate NoneInherited(ms: seq<Message>, channels: set<string>, inherited: set<string>, after: int) {
    forall m :: m in ms && m.channel in inherited && m.id > after ==> m.channel in channels
  }

  /** More channels give the same messages exactly when none is on the additional ones. */
  lemma {:induction false} MatchingMore(ms: seq<Message>, channels: set<string>, inherited: set<string>, after: int)
    ensures |Matching(ms, channels, after)| <= |Matching(ms, channels + inherited, after)|
    ensures Matching(ms, channels + inherited, after) == Matching(ms, channels, after)
       <==> NoneInherited(ms, channels, inherited, after)
    ensures Matching(ms, channels + inherited, after) != Matching(ms, channels, after)
       ==> |Matching(ms, channels, after)| < |Matching(ms, channels + inherited, after)|
  {
    if ms != [] {
      var n := |ms| - 1;
      MatchingMore(ms[..n], channels, inherited, after);
      assert ms == ms[..n] + [ms[n]];
      assert NoneInherited(ms, channels, inherited, after)
        <==> NoneInherited(ms[..n], channels, inherited, after)
             && (ms[n].channel in inherited && ms[n].id > after ==> ms[n].channel in channels);
    }
  }

  /** The test `channel in filter` also finds the names every object inherits. A follower still receives exactly the
      messages it asked for if and only if none of them had been dropped before and no message was posted on an
      inherited name it did not ask for. */
  lemma FollowerInherits(l: Log, maxQueue: nat, base: int, all: seq<Message>, start: int, filter: set<string>,
                         inherited: set<string>, later: seq<Message>)
    requires Holds(l, maxQueue, base, all) && Follows(l, later)
    requires start <= l.messageId
    ensures Received(l, start, filter + inherited, later) == Matching(all + later, filter, start)
       <==> NoneDropped(l, all, filter, start) && NoneInherited(l.queue + later, filter, inherited, start)
  {
    hide Holds, Follows, Rising, Matching, Dropped, NoneDropped, NoneInherited, Received;
    ReceivedParts(l, maxQueue, base, all, start, filter + inherited, later);
    MatchingMore(l.queue + later, filter, inherited, start);
    MatchingParts(l, maxQueue, base, all, filter, start, later);
    MatchingConcat(l.queue, later, filter, start);
    var gone, asked := Matching(Dropped(l, all), filter, start), Matching(l.queue + later, filter, start);
    assert Matching(all + later, filter, start) == gone + asked;
    if gone != [] {
      AskedNotGone(l, maxQueue, base, all, start, filter, filter + inherited, later);
      assert gone[0] in gone + asked;
    } else {
      assert gone + asked == asked;
    }
  }

  /** What a follower receives, as one list. */
  lemma ReceivedParts(l: Log, maxQueue: nat, base: int, all: seq<Message>, start: int, filter: set<string>,
                      later: seq<Message>)
    requires Holds(l, maxQueue, base, all) && Follows(l, later) && start <= l.messageId
    ensures Received(l, start, filter, later) == Matching(l.queue + later, filter, start)
  {
    hide Holds, Follows, Rising, Matching, Dropped, NoneDropped, Received;
    ReceivedExactly(l, maxQueue, base, all, start, filter, later);
    MatchingParts(l, maxQueue, base, all, filter, start, later);
    MatchingConcat(l.queue, later, filter, start);
  }

  /** A message that was dropped is not among the logged and later ones, whatever the channels. */
  lemma AskedNotGone(l: Log, maxQueue: nat, base: int, all: seq<Message>, start: int, filter: set<string>,
                     more: set<string>, later: seq<Message>)
    requires Holds(l, maxQueue, base, all) && Follows(l, later)
    requires Matching(Dropped(l, all), filter, start) != []
    ensures Matching(Dropped(l, all), filter, start)[0] !in Matching(l.queue + later, more, start)
  {
    hide Matching;
    var m := Matching(Dropped(l, all), filter, start)[0];
    MatchingMember(Dropped(l, all), filter, start, m);
    MatchingMember(l.queue + later, more, start, m);
    var i :| 0 <= i < |Dropped(l, all)| && Dropped(l, all)[i] == m;
    assert all[i] == m && m.id == base + 1 + i;
    var d := |all| - |l.queue|;
    forall n | n in l.queue + later ensures n.id > base + d {
      if n in l.queue {
        var k :| 0 <= k < |l.queue| && l.queue[k] == n;
        assert all[d + k] == n;
      }
    }
  }

  /** A socket that asked for one channel is sent a message posted on a name its filter object inherits. */
  lemma InheritedExample(name: string)
    requires name != "submissions"
    ensures var m := Message(1, name, "");
            && Received(Log([], 0), 0, {"submissions"} + {name}, [m]) == [m]
            && Matching([m], {"submissions"}, 0) == []
  {
    var m := Message(1, name, "");
    assert GotAll(Follow(0, {"submissions"} + {name}, []), [m][..0]) == Follow(0, {"submissions"} + {name}, []);
    assert [m][..0] == [];
  }

  lemma {:induction false} MatchingNothing(ms: seq<Message>, channels: set<string>, after: int)
    ensures Matching(ms, channels, after) == [] <==> forall m :: m in ms ==> !(m.channel in channels && m.id > after)
  {
    if ms != [] {
      var n := |ms| - 1;
      MatchingNothing(ms[..n], channels, after);
      assert ms == ms[..n] + [ms[n]];
    }
  }

  // ---- long polls ----

  /** The first logged message a poll accepts. */
  function FirstMatch(q: seq<Message>, channels: set<string>, last: int): Option<Message> {
    if q == [] then None
    else if q[0].id > last && q[0].channel in channels then Some(q[0])
    else FirstMatch(q[1..], channels, last)
  }

  /** The answer to a poll made while the log was l, once the messages `later` have been posted; None while it waits. */
  function Answer(l: Log, channels: set<string>, last: int, later: seq<Message>): Option<Message> {
    var r := FirstMatch(l.queue, channels, last);
    if r.Some? then r else FirstInChannels(later, channels)
  }

  /** A waiting poll takes the first message in its channels, whatever its id. */
  function FirstInChannels(ms: seq<Message>, channels: set<string>): Option<Message> {
    if ms == [] then None else if ms[0].channel in channels then Some(ms[0]) else FirstInChannels(ms[1..], channels)
  }

  function Head(ms: seq<Message>): Option<Message> {
    if ms == [] then None else Some(ms[0])
  }

  lemma {:induction false} FirstMatchIs(q: seq<Message>, channels: set<string>, last: int)
    ensures FirstMatch(q, channels, last) == Head(Matching(q, channels, last))
  {
    if q != [] {
      assert q == [q[0]] + q[1..];
      MatchingConcat([q[0]], q[1..], channels, last);
      assert Matching([q[0]], channels, last) == if q[0].channel in channels && q[0].id > last then [q[0]] else [];
      FirstMatchIs(q[1..], channels, last);
    }
  }

  lemma {:induction false} FirstInChannelsIs(ms: seq<Message>, channels: set<string>, last: int)
    requires forall m :: m in ms ==> m.id > last
    ensures FirstInChannels(ms, channels) == FirstMatch(ms, channels, last)
  {
    if ms != [] {
      assert ms[0] in ms;
      FirstInChannelsIs(ms[1..], channels, last);
    }
  }

  /** A poll is answered with the first logged or later message that its channels let through. */
  lemma AnswerParts(l: Log, maxQueue: nat, base: int, all: seq<Message>, channels: set<string>, last: int,
                    later: seq<Message>)
    requires Holds(l, maxQueue, base, all) && Follows(l, later) && last <= l.messageId
    ensures Answer(l, channels, last, later) == Head(Matching(l.queue + later, channels, last))
  {
    hide Holds, Follows, Matching, Dropped, NoneDropped, FirstMatch, FirstInChannels;
    MatchingParts(l, maxQueue, base, all, channels, last, later);
    MatchingConcat(l.queue, later, channels, last);
    FirstMatchIs(l.queue, channels, last);
    LaterAbove(l, later);
    FirstInChannelsIs(later, channels, last);
    FirstMatchIs(later, channels, last);
  }

  /** The first message let through, if any, is on a channel that was asked for. */
  ghost predicate FirstAsked(ms: seq<Message>, channels: set<string>, inherited: set<string>, last: int) {
    var first := Head(Matching(ms, channels + inherited, last));
    first.Some? ==> first.value.channel in channels
  }

  /** A poll is answered with the first message asked for exactly when none asked for was dropped before the poll and no
      message on an inherited name comes first. */
  lemma AnswerIsFirst(l: Log, maxQueue: nat, base: int, all: seq<Message>, channels: set<string>,
                      inherited: set<string>, last: int, later: seq<Message>)
    requires Holds(l, maxQueue, base, all)
    requires Follows(l, later)
    requires last <= l.messageId
    ensures Answer(l, channels + inherited, last, later) == Head(Matching(all + later, channels, last))
       <==> NoneDropped(l, all, channels, last) && FirstAsked(l.queue + later, channels, inherited, last)
  {
    hide Holds, Follows, Matching, Dropped, NoneDropped, Answer;
    var rest, more := l.queue + later, channels + inherited;
    AnswerParts(l, maxQueue, base, all, more, last, later);
    MatchingParts(l, maxQueue, base, all, channels, last, later);
    MatchingConcat(l.queue, later, channels, last);
    HeadOfMore(rest, channels, inherited, last);
    var gone, asked := Matching(Dropped(l, all), channels, last), Matching(rest, channels, last);
    assert Matching(all + later, channels, last) == gone + asked;
    if gone != [] {
      AskedNotGone(l, maxQueue, base, all, last, channels, more, later);
    } else {
      assert gone + asked == asked;
    }
    if asked != [] { MatchingMember(rest, channels, last, asked[0]); }
  }

  /** With more channels the first match is the same exactly when it is on a channel asked for. */
  lemma HeadOfMore(ms: seq<Message>, channels: set<string>, inherited: set<string>, last: int)
    ensures Head(Matching(ms, channels + inherited, last)) == Head(Matching(ms, channels, last))
       <==> FirstAsked(ms, channels, inherited, last)
    decreases |ms|
  {
    if ms != [] {
      var n := |ms| - 1;
      HeadOfMore(ms[..n], channels, inherited, last);
      var a, b := Matching(ms[..n], channels, last), Matching(ms[..n], channels + inherited, last);
      if a != [] { MatchingMember(ms[..n], channels, last, a[0]); }
      if a != [] { MatchingMember(ms[..n], channels + inherited, last, a[0]); }
      if b != [] { MatchingMember(ms[..n], channels + inherited, last, b[0]); }
      if b != [] { MatchingMember(ms[..n], channels, last, b[0]); }
    }
  }

  /** One answered poll of a chain: the log when it was made, all messages up to then, and those up to its answer. */
  datatype Poll = Poll(l: Log, all: seq<Message>, later: seq<Message>, answer: Message)

  /** p asks above `last`, finds nothing it asks for dropped, and is answered. */
  ghost predicate Links(p: Poll, maxQueue: nat, base: int, channels: set<string>, last: int, final: seq<Message>) {
    && Holds(p.l, maxQueue, base, p.all) && Follows(p.l, p.later)
    && p.all + p.later <= final
    && last <= p.l.messageId
    && NoneDropped(p.l, p.all, channels, last)
    && Answer(p.l, channels, last, p.later) == Some(p.answer)
  }

  /** Each poll passes back the id of the previous answer. */
  ghost predicate Chained(polls: seq<Poll>, maxQueue: nat, base: int, channels: set<string>, last: int,
                          final: seq<Message>)
    decreases |polls|
  {
    polls == []
    || (Links(polls[0], maxQueue, base, channels, last, final)
        && Chained(polls[1..], maxQueue, base, channels, polls[0].answer.id, final))
  }

  function Answers(polls: seq<Poll>): (r: seq<Message>)
    ensures |r| == |polls|
  {
    seq(|polls|, i requires 0 <= i < |polls| => polls[i].answer)
  }

  /** Asking above the first match asks for the rest. */
  lemma {:induction false} MatchingNext(ms: seq<Message>, channels: set<string>, last: int)
    requires Rising(ms) && Matching(ms, channels, last) != []
    ensures Matching(ms, channels, Matching(ms, channels, last)[0].id) == Matching(ms, channels, last)[1..]
    decreases |ms|
  {
    var n := |ms| - 1;
    var init, r := ms[..n], Matching(ms[..n], channels, last);
    if r != [] {
      MatchingNext(init, channels, last);
      MatchingMember(init, channels, last, r[0]);
    } else {
      assert Matching(ms, channels, last) == [ms[n]];
      forall m | m in init ensures !(m.channel in channels && m.id > ms[n].id) {}
      MatchingNothing(init, channels, ms[n].id);
    }
  }

  lemma AskedFirst(ms: seq<Message>, channels: set<string>, last: int)
    ensures FirstAsked(ms, channels, {}, last)
  {
    hide Matching;
    assert channels + {} == channels;
    var r := Matching(ms, channels, last);
    if r != [] { MatchingMember(ms, channels, last, r[0]); }
  }

  lemma LinkIsFirst(p: Poll, maxQueue: nat, base: int, channels: set<string>, last: int, final: seq<Message>)
    requires Links(p, maxQueue, base, channels, last, final)
    ensures Head(Matching(final, channels, last)) == Some(p.answer)
  {
    hide Holds, Follows, Matching, NoneDropped, Answer;
    var seen := p.all + p.later;
    AnswerIsFirst(p.l, maxQueue, base, p.all, channels, {}, last, p.later);
    assert channels + {} == channels;
    AskedFirst(p.l.queue + p.later, channels, last);
    assert final == seen + final[|seen|..];
    MatchingConcat(seen, final[|seen|..], channels, last);
  }

  /** A chain of long polls sees the messages its channels (inherited names included) let through, one after the other,
      from the first on. */
  lemma {:induction false} ChainSees(polls: seq<Poll>, maxQueue: nat, base: int, channels: set<string>, last: int,
                                     final: seq<Message>)
    requires Rising(final)
    requires Chained(polls, maxQueue, base, channels, last, final)
    ensures Answers(polls) <= Matching(final, channels, last)
    decreases |polls|
  {
    hide Links, Matching, Rising;
    if polls != [] {
      var p := polls[0];
      LinkIsFirst(p, maxQueue, base, channels, last, final);
      MatchingNext(final, channels, last);
      ChainSees(polls[1..], maxQueue, base, channels, p.answer.id, final);
      assert Answers(polls) == [p.answer] + Answers(polls[1..]);
    }
  }

  // ---- the server ----

  /** A socket and the log just before its latest catch-up, and how many messages had been posted by then. */
  datatype Start = Start(begun: Follow, log: Log, seen: nat)

  /** What a socket was sent is what the catch-up and the messages posted since give. */
  ghost predicate UpToDate(f: Follow, s: Start, maxQueue: nat, base: int, all: seq<Message>) {
    && s.seen <= |all| && Holds(s.log, maxQueue, base, all[..s.seen])
    && f.filter == s.begun.filter
    && f.sent == GotAll(CatchUp(s.log.queue, s.begun), all[s.seen..]).sent
  }

  lemma GotFilter(f: Follow, ms: seq<Message>)
    ensures GotAll(f, ms).filter == f.filter
  {}

  lemma CatchUpFilter(q: seq<Message>, f: Follow)
    ensures CatchUp(q, f).filter == f.filter
  {}

  lemma CaughtUp(f: Follow, l: Log, maxQueue: nat, base: int, all: seq<Message>)
    requires Holds(l, maxQueue, base, all)
    ensures UpToDate(CatchUp(l.queue, f), Start(f, l, |all|), maxQueue, base, all)
  {
    hide Holds;
    assert all[..|all|] == all && all[|all|..] == [];
    CatchUpFilter(l.queue, f);
  }

  /** One more message keeps a follower up to date. */
  lemma GotUpToDate(f: Follow, s: Start, maxQueue: nat, base: int, all: seq<Message>, m: Message)
    requires UpToDate(f, s, maxQueue, base, all)
    ensures UpToDate(Got(f, m), s, maxQueue, base, all + [m])
  {
    hide Holds, CatchUp;
    var ms := all[s.seen..];
    assert (all + [m])[..s.seen] == all[..s.seen] && (all + [m])[s.seen..] == ms + [m];
    assert (ms + [m])[..|ms|] == ms;
    GotFilter(CatchUp(s.log.queue, s.begun), ms);
    CatchUpFilter(s.log.queue, s.begun);
  }

  class Follower {
    var lastMsg: int
    var filter: set<string>
    var sent: seq<Message>
    ghost var since: Start

    constructor ()
      ensures Abs() == Follow(0, {}, [])
    {
      lastMsg, filter, sent := 0, {}, [];
    }

    ghost function Abs(): Follow
      reads this
    {
      Follow(lastMsg, filter, sent)
    }

    method GotMessage(m: Message)
      modifies `sent, `lastMsg
      ensures Abs() == Got(old(Abs()), m)
    {
      if m.channel in filter {
        sent := sent + [m];
      }
      lastMsg := m.id;
    }
  }

  class Poller {
    const channels: set<string>
    var answer: Option<Message>

    constructor (channels: set<string>)
      ensures this.channels == channels && answer == None
    {
      this.channels := channels;
      answer := None;
    }

    method GotMessage(m: Message) returns (taken: bool)
      modifies this
      ensures taken == (m.channel in channels)
      ensures answer == if taken then Some(m) else old(answer)
    {
      taken := m.channel in channels;
      if taken {
        answer := Some(m);
      }
    }
  }

  /** What clients ask of the server. */
  datatype Request =
    | Posting(channel: string, body: string)
    | Starting(f: Follower, start: int)
    | Filtering(f: Follower, filter: seq<string>)
    | Closing(f: Follower)
    | Polling(channels: set<string>, last: int)

  /** The sockets that make requests. */
  function Sockets(requests: seq<Request>): set<Follower> {
    set r | r in requests && (r.Starting? || r.Filtering? || r.Closing?) :: r.f
  }

  class Daemon {
    const maxQueue: nat
    /** The names that `in` finds on every object. */
    const inherited: set<string>
    var queue: seq<Message>
    var messageId: int
    var followers: set<Follower>
    var pollers: set<Poller>
    /** The id before the first message, and all messages ever posted. */
    ghost const base: int
    ghost var all: seq<Message>

    ghost function Abs(): Log
      reads this
    {
      Log(queue, messageId)
    }

    /** The log holds the most recent messages, and every follower has been sent what it asked for. */
    ghost predicate Valid()
      reads this, followers
    {
      && Holds(Abs(), maxQueue, base, all)
      && forall f :: f in followers ==> UpToDate(f.Abs(), f.since, maxQueue, base, all)
    }

    constructor (maxQueue: nat, inherited: set<string>, now: int)
      ensures this.maxQueue == maxQueue && this.inherited == inherited && followers == {} && pollers == {}
      ensures Valid() && Abs() == Log([], now) && base == now && all == []
    {
      this.maxQueue := maxQueue;
      this.inherited := inherited;
      queue := [];
      messageId := now;
      followers := {};
      pollers := {};
      base := now;
      all := [];
    }

    /** Appends to the log, hands the message to every follower, and answers the pollers in whose channels it is. */
    method PostMessage(channel: string, body: string) returns (id: int)
      requires Valid()
      modifies `queue, `messageId, `all, `pollers, followers`sent, followers`lastMsg, pollers
      ensures Valid() && all == old(all) + [Message(id, channel, body)]
      ensures Abs() == Post(old(Abs()), maxQueue, channel, body) && id == messageId
      ensures forall f :: f in followers ==> f.Abs() == Got(old(f.Abs()), Message(id, channel, body))
      ensures pollers == set p | p in old(pollers) && channel !in p.channels
      ensures forall p :: p in old(pollers) ==>
                p.answer == if channel in p.channels then Some(Message(id, channel, body)) else old(p.answer)
    {
      hide Holds, CatchUp, GotAll, UpToDate;
      PostHolds(Abs(), maxQueue, base, all, channel, body);
      messageId := messageId + 1;
      var m := Message(messageId, channel, body);
      queue := queue + [m];
      if |queue| > maxQueue {
        queue := queue[1..];
      }
      all := all + [m];
      NotifyFollowers(m);
      forall f | f in followers ensures UpToDate(f.Abs(), f.since, maxQueue, base, all) {
        GotUpToDate(old(f.Abs()), f.since, maxQueue, base, old(all), m);
      }
      NotifyPollers(m);
      id := messageId;
    }

    method NotifyFollowers(m: Message)
      modifies followers`sent, followers`lastMsg
      ensures forall f :: f in followers ==> f.Abs() == Got(old(f.Abs()), m)
    {
      var left := followers;
      while left != {}
        invariant left <= followers
        invariant forall f :: f in left ==> f.Abs() == old(f.Abs())
        invariant forall f :: f in followers - left ==> f.Abs() == Got(old(f.Abs()), m)
        decreases left
      {
        var f :| f in left;
        f.GotMessage(m);
        left := left - {f};
      }
    }

    method NotifyPollers(m: Message)
      modifies `pollers, pollers
      ensures pollers == set p | p in old(pollers) && m.channel !in p.channels
      ensures forall p :: p in old(pollers) ==>
                p.answer == if m.channel in p.channels then Some(m) else old(p.answer)
    {
      var waiting := pollers;
      while waiting != {}
        invariant waiting <= old(pollers) && pollers <= old(pollers)
        invariant forall p :: p in waiting ==> p.answer == old(p.answer) && p in pollers
        invariant forall p :: p in old(pollers) - waiting ==>
          && p.answer == (if m.channel in p.channels then Some(m) else old(p.answer))
          && (p in pollers <==> m.channel !in p.channels)
        modifies `pollers, old(pollers)
        decreases waiting
      {
        var p :| p in waiting;
        var taken := p.GotMessage(m);
        if taken {
          pollers := pollers - {p};
        }
        waiting := waiting - {p};
      }
    }

    /** Sets a socket's position. */
    method StartMsg(f: Follower, start: int)
      requires Valid()
      modifies f`lastMsg
      ensures Valid() && f.Abs() == old(f.Abs()).(lastMsg := start)
    {
      f.lastMsg := start;
    }

    /** What `in` finds on an object whose own names are these. */
    function Admits(names: set<string>): set<string> {
      names + inherited
    }

    /** A filter is a non-empty list of channels; anything else is answered with an error and changes nothing. */
    method SetFilter(f: Follower, filter: seq<string>) returns (ok: bool)
      requires Valid()
      modifies `followers, f
      ensures Valid()
      ensures ok == (|filter| > 0)
      ensures followers == if ok then old(followers) + {f} else old(followers)
      ensures f.Abs()
           == if ok then CatchUp(queue, old(f.Abs()).(filter := Admits(set c | c in filter))) else old(f.Abs())
      ensures ok ==> f.since == Start(old(f.Abs()).(filter := Admits(set c | c in filter)), Abs(), |all|)
      ensures !ok ==> unchanged(f)
    {
      hide Holds, GotAll, UpToDate;
      if |filter| == 0 {
        return false;
      }
      f.filter := Admits(set c | c in filter);
      followers := followers + {f};
      f.since := Start(f.Abs(), Abs(), |all|);
      CaughtUp(f.Abs(), Abs(), maxQueue, base, all);
      for i := 0 to |queue|
        invariant followers == old(followers) + {f}
        invariant f.Abs() == CatchUp(queue[..i], f.since.begun)
        invariant f.since == Start(old(f.Abs()).(filter := Admits(set c | c in filter)), Abs(), |all|)
        invariant forall g :: g in followers && g != f ==> UpToDate(g.Abs(), g.since, maxQueue, base, all)
      {
        assert queue[..i + 1][..i] == queue[..i];
        if queue[i].id > f.lastMsg {
          f.GotMessage(queue[i]);
        }
      }
      assert queue[..|queue|] == queue;
      ok := true;
    }

    method Close(f: Follower)
      requires Valid()
      modifies `followers
      ensures Valid() && followers == old(followers) - {f}
    {
      followers := followers - {f};
    }

    /** Answers a poll from the log, or keeps it waiting. */
    method LongPoll(channels: set<string>, last: int) returns (p: Poller)
      requires Valid()
      modifies `pollers
      ensures Valid() && fresh(p) && p.channels == Admits(channels)
      ensures p.answer == FirstMatch(queue, Admits(channels), last)
      ensures pollers == if p.answer.None? then old(pollers) + {p} else old(pollers) - {p}
    {
      hide Holds, UpToDate;
      p := new Poller(Admits(channels));
      var got := false;
      for i := 0 to |queue|
        invariant Valid()
        invariant !got ==>
          p.answer == None && FirstMatch(queue, p.channels, last) == FirstMatch(queue[i..], p.channels, last)
        invariant got ==> p.answer.Some? && p.answer == FirstMatch(queue, p.channels, last)
        invariant pollers == if got then old(pollers) - {p} else old(pollers)
      {
        if !got && queue[i].id > last {
          got := p.GotMessage(queue[i]);
          if got {
            pollers := pollers - {p};
          }
        }
      }
      if !got {
        pollers := pollers + {p};
      }
    }

    /** A socket sets its position and then its filter; after any requests of anyone else it has received exactly what
        `Received` says, which is what it asked for iff nothing asked for was dropped before and nothing was posted on
        an inherited name it did not ask for. */
    method Session(f: Follower, start: int, filter: seq<string>, requests: seq<Request>)
      requires Valid() && f.sent == [] && |filter| > 0
      requires f !in Sockets(requests)
      modifies this, followers, pollers, f, Sockets(requests)
      ensures Valid() && f in followers && old(all) <= all
      ensures var channels, later := (set c | c in filter), all[|old(all)|..];
              && f.sent == Received(old(Abs()), start, Admits(channels), later)
              && (start <= old(messageId) ==>
                    (f.sent == Matching(all, channels, start) <==>
                       && NoneDropped(old(Abs()), old(all), channels, start)
                       && NoneInherited(old(queue) + later, channels, inherited, start)))
    {
      hide Holds, CatchUp, GotAll, NoneDropped, NoneInherited, Matching;
      StartMsg(f, start);
      var _ := SetFilter(f, filter);
      for i := 0 to |requests|
        invariant Valid() && f in followers && old(all) <= all
        invariant f.since == Start(Follow(start, Admits(set c | c in filter), []), old(Abs()), |old(all)|)
        invariant followers <= old(followers) + {f} + Sockets(requests)
        invariant forall p :: p in pollers ==> p in old(pollers) || fresh(p)
      {
        var r := requests[i];
        assert r in requests;
        match r {
          case Posting(channel, body) => var _ := PostMessage(channel, body);
          case Starting(g, at) => StartMsg(g, at);
          case Filtering(g, channels) => var _ := SetFilter(g, channels);
          case Closing(g) => Close(g);
          case Polling(channels, last) =>
            var _ := LongPoll(channels, last);
        }
      }
      ghost var later := all[|old(all)|..];
      assert all == old(all) + later;
      PostedLater(old(Abs()), Abs(), maxQueue, base, old(all), later);
      if start <= old(messageId) {
        FollowerInherits(old(Abs()), maxQueue, base, old(all), start, (set c | c in filter), inherited, later);
      }
    }
  }

  /** What was posted between two states of the log follows the first. */
  lemma PostedLater(l: Log, now: Log, maxQueue: nat, base: int, all: seq<Message>, later: seq<Message>)
    requires Holds(l, maxQueue, base, all) && Holds(now, maxQueue, base, all + later)
    ensures Follows(l, later)
  {
    forall i | 0 <= i < |later| ensures later[i].id == l.messageId + 1 + i {
      assert later[i] == (all + later)[|all| + i];
    }
  }
}

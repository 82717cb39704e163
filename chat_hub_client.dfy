/** ChatHubClient: the session client wrapped around the chat hub
    connection. It subscribes to the hub's inbound events, forwards
    ReceiveMessage to a single message callback and every other event to the
    status callback, and joins or sends with the fallbacks of the original.

    The hub server is a function from each call to its outcome, so the
    order of the calls and where they stop can be stated exactly. */
module ChatHub {
  import opened Common
  import opened Strings
  import opened Guids
  import opened SignalR
  import opened Models

  /** Which `Action<Message>` a client holds (the single message callback slot). */
  datatype Callback = Callback(id: nat)

  /** What the connection delivers to the handlers RegisterEventHandlers subscribes. */
  datatype HubEvent =
    | ReceiveMessage(message: Message)
    | SystemMessage(text: string)
    | ChatConnected(text: string)
    | JoinedConversation(conversationId: Guid)
    | Reconnecting(error: Option<Exn>)
    | Reconnected(connectionId: Option<string>)
    | Closed(error: Option<Exn>)

  /** The events RegisterEventHandlers subscribes to, in its order. */
  const ChatHubEvents: seq<string> :=
    ["ReceiveMessage", "SystemMessage", "ChatConnected", "JoinedConversation",
     "Reconnecting", "Reconnected", "Closed"]

  const SystemPrefix := "[SYSTEM] "
  const HubReadyPrefix := "Chat Hub: "
  const JoinedPrefix := "Joined conversation: "
  const ReconnectingPrefix := "Reconnecting to chat hub... Reason: "
  const ReconnectedPrefix := "Reconnected to chat hub. ConnectionId: "
  const ClosedWithErrorPrefix := "Connection closed with error: "
  const ClosedLine := "Connection closed"

  /** The status lines a handler reports for e: none for ReceiveMessage
      (it goes to the message callback), exactly one for every other event. */
  function EventStatus(e: HubEvent): (lines: seq<string>)
    ensures |lines| == if e.ReceiveMessage? then 0 else 1
  {
    match e
    case ReceiveMessage(_) => []
    case SystemMessage(m) => [SystemPrefix + m]
    case ChatConnected(m) => [HubReadyPrefix + m]
    case JoinedConversation(id) => [JoinedPrefix + Guids.ToString(id)]
    case Reconnecting(err) =>
      [ReconnectingPrefix + (if err.Some? then err.value.message else "Connection lost")]
    case Reconnected(cid) => [ReconnectedPrefix + (if cid.Some? then cid.value else "")]
    case Closed(err) =>
      if err.Some? then [ClosedWithErrorPrefix + err.value.message] else [ClosedLine]
  }

  /** The state the connection is in once the library has reported e:
      connection lost, recovered, or closed for good. */
  function StateAfter(s: ConnectionState, e: HubEvent): ConnectionState
  {
    match e
    case Reconnecting(_) => ConnectionState.Reconnecting
    case Reconnected(_) => Connected
    case Closed(_) => Disconnected
    case _ => s
  }

  /** The kinds of status line the event handlers write. */
  datatype StatusKind = SystemNotice | HubReady | Joined | LinkLost | LinkRestored | ClosedWithError | ClosedCleanly

  function KindOf(e: HubEvent): StatusKind
    requires !e.ReceiveMessage?
  {
    match e
    case SystemMessage(_) => SystemNotice
    case ChatConnected(_) => HubReady
    case JoinedConversation(_) => Joined
    case Reconnecting(_) => LinkLost
    case Reconnected(_) => LinkRestored
    case Closed(err) => if err.Some? then ClosedWithError else ClosedCleanly
  }

  /** The text an event's status line carries after its fixed wording. */
  function DetailOf(e: HubEvent): string
    requires !e.ReceiveMessage?
  {
    match e
    case SystemMessage(m) => m
    case ChatConnected(m) => m
    case JoinedConversation(id) => Guids.ToString(id)
    case Reconnecting(err) => if err.Some? then err.value.message else "Connection lost"
    case Reconnected(cid) => if cid.Some? then cid.value else ""
    case Closed(err) => if err.Some? then err.value.message else ""
  }

  /** Reads a status line back: which kind of event wrote it, and its detail. */
  function ClassifyStatus(line: string): Option<(StatusKind, string)>
  {
    if StartsWith(line, SystemPrefix) then Some((SystemNotice, line[|SystemPrefix|..]))
    else if StartsWith(line, HubReadyPrefix) then Some((HubReady, line[|HubReadyPrefix|..]))
    else if StartsWith(line, JoinedPrefix) then Some((Joined, line[|JoinedPrefix|..]))
    else if StartsWith(line, ReconnectingPrefix) then Some((LinkLost, line[|ReconnectingPrefix|..]))
    else if StartsWith(line, ReconnectedPrefix) then Some((LinkRestored, line[|ReconnectedPrefix|..]))
    else if StartsWith(line, ClosedWithErrorPrefix) then Some((ClosedWithError, line[|ClosedWithErrorPrefix|..]))
    else if line == ClosedLine then Some((ClosedCleanly, ""))
    else None
  }

  lemma PrefixHolds(p: string, m: string)
    ensures StartsWith(p + m, p) && (p + m)[|p|..] == m
  {
    assert (p + m)[..|p|] == p;
  }

  lemma PrefixFails(p: string, q: string, m: string, k: nat)
    requires k < |p| && k < |q| && p[k] != q[k]
    ensures !StartsWith(p + m, q)
  {
    if |q| <= |p + m| {
      assert (p + m)[..|q|][k] == p[k];
    }
  }

  /** Each event's status line tells which event wrote it and carries its
      detail unchanged: the handlers' lines cannot be confused. */
  lemma StatusLineIdentifiesEvent(e: HubEvent)
    requires !e.ReceiveMessage?
    ensures ClassifyStatus(EventStatus(e)[0]) == Some((KindOf(e), DetailOf(e)))
  {
    var d := DetailOf(e);
    match e
    case SystemMessage(_) =>
      PrefixHolds(SystemPrefix, d);
    case ChatConnected(_) =>
      PrefixHolds(HubReadyPrefix, d);
      PrefixFails(HubReadyPrefix, SystemPrefix, d, 0);
    case JoinedConversation(_) =>
      PrefixHolds(JoinedPrefix, d);
      PrefixFails(JoinedPrefix, SystemPrefix, d, 0);
      PrefixFails(JoinedPrefix, HubReadyPrefix, d, 0);
    case Reconnecting(_) =>
      PrefixHolds(ReconnectingPrefix, d);
      PrefixFails(ReconnectingPrefix, SystemPrefix, d, 0);
      PrefixFails(ReconnectingPrefix, HubReadyPrefix, d, 0);
      PrefixFails(ReconnectingPrefix, JoinedPrefix, d, 0);
    case Reconnected(_) =>
      PrefixHolds(ReconnectedPrefix, d);
      PrefixFails(ReconnectedPrefix, SystemPrefix, d, 0);
      PrefixFails(ReconnectedPrefix, HubReadyPrefix, d, 0);
      PrefixFails(ReconnectedPrefix, JoinedPrefix, d, 0);
      PrefixFails(ReconnectedPrefix, ReconnectingPrefix, d, 10);
    case Closed(err) =>
      if err.Some? {
        PrefixHolds(ClosedWithErrorPrefix, d);
        PrefixFails(ClosedWithErrorPrefix, SystemPrefix, d, 0);
        PrefixFails(ClosedWithErrorPrefix, HubReadyPrefix, d, 1);
        PrefixFails(ClosedWithErrorPrefix, JoinedPrefix, d, 0);
        PrefixFails(ClosedWithErrorPrefix, ReconnectingPrefix, d, 0);
        PrefixFails(ClosedWithErrorPrefix, ReconnectedPrefix, d, 0);
      } else {
        var line := ClosedLine;
        assert line == ClosedLine + "";
        PrefixFails(ClosedLine, SystemPrefix, "", 0);
        PrefixFails(ClosedLine, HubReadyPrefix, "", 1);
        PrefixFails(ClosedLine, JoinedPrefix, "", 0);
      }
  }

  /** The conversation named in a "Joined conversation" line can be read back. */
  lemma JoinedLineNamesConversation(id: Guid)
    ensures ClassifyStatus(EventStatus(JoinedConversation(id))[0]) == Some((Joined, Guids.ToString(id)))
    ensures TryParse(Guids.ToString(id)) == Some(id)
  {
    StatusLineIdentifiesEvent(JoinedConversation(id));
    ParseToString(id);
  }

  // ---------------------------------------------------------------------
  // The join fallback, stated as an ordered list of strategies evaluated
  // with short-circuit on the first one the hub accepts.

  const JoinTarget := "JoinConversation"
  const SendTarget := "SendMessage"
  const AllFailedMessage := "All join approaches failed"

  /** Strategy 1: the Guid; strategy 2: its string form; strategy 3: the
      caller's user id and the string form (only when there is a user id). */
  function JoinStrategies(id: Guid, userId: Option<string>): (r: seq<HubCall>)
    ensures |r| == if IsNullOrEmpty(userId) then 2 else 3
    ensures forall i :: 0 <= i < |r| ==> r[i].Invoke? && r[i].target == JoinTarget
  {
    [Invoke(JoinTarget, [GuidArg(id)]), Invoke(JoinTarget, [StringArg(Guids.ToString(id))])]
    + (if IsNullOrEmpty(userId) then []
       else [Invoke(JoinTarget, [StringArg(userId.value), StringArg(Guids.ToString(id))])])
  }

  /** The status line after strategy k (0-based) succeeded. */
  function SuccessLine(k: nat, id: Guid): string
  {
    if k == 0 then "Successfully joined conversation: " + Guids.ToString(id)
    else if k == 1 then "Successfully joined conversation (string approach): " + Guids.ToString(id)
    else "Successfully joined conversation (with user ID): " + Guids.ToString(id)
  }

  /** The line reporting that strategy k (0-based) was rejected with `message`. */
  function RejectionLine(k: nat, message: string): string
  {
    "Approach " + NatToString(k + 1) + " failed: " + message
  }

  /** The rejection lines of strategies from .. to - 1, numbered from 1. */
  function RejectionLines(s: seq<HubCall>, from: nat, to: nat, hub: HubServer): (r: seq<string>)
    requires from <= to <= |s|
    ensures |r| == to - from
  {
    seq(to - from, i requires 0 <= i < to - from => RejectionLine(from + i, MessageOf(Reply(hub, s[from + i]))))
  }

  /** The messages of the rejections of `calls`, in order. */
  function FailureMessages(calls: seq<HubCall>, hub: HubServer): (r: seq<string>)
    ensures |r| == |calls|
  {
    seq(|calls|, i requires 0 <= i < |calls| => MessageOf(Reply(hub, calls[i])))
  }

  /** AggregateException.Message: the message followed by " (inner message)" per inner exception. */
  function AggregateMessage(message: string, inner: seq<string>): string
  {
    message + Concat(seq(|inner|, i requires 0 <= i < |inner| => " (" + inner[i] + ")"))
  }

  /** The error reported when every strategy of `s` was rejected. */
  function AllFailedLine(s: seq<HubCall>, hub: HubServer): string
  {
    "Error joining conversation: " + AggregateMessage(AllFailedMessage, FailureMessages(s, hub))
  }

  /** What a join does: the calls made, the status lines reported, the result. */
  datatype JoinOutcome = JoinOutcome(calls: seq<HubCall>, lines: seq<string>, joined: bool)

  /** The fallback chain from strategy k on, as the nested catch blocks run
      it: strategy k is invoked; if the hub accepts it the join succeeds,
      otherwise its rejection is reported and strategy k + 1 is tried; after
      the last rejection comes the aggregate error, which the original
      raises only on the three-strategy path. */
  function TryFrom(s: seq<HubCall>, k: nat, id: Guid, hub: HubServer): JoinOutcome
    requires k < |s|
    decreases |s| - k
  {
    var r := Reply(hub, s[k]);
    if r.Ok? then JoinOutcome([s[k]], [SuccessLine(k, id)], true)
    else if k + 1 < |s| then
      var rest := TryFrom(s, k + 1, id, hub);
      JoinOutcome([s[k]] + rest.calls, [RejectionLine(k, r.error.message)] + rest.lines, rest.joined)
    else
      JoinOutcome([s[k]], [RejectionLine(k, r.error.message)] + (if |s| == 3 then [AllFailedLine(s, hub)] else []), false)
  }

  /** The lines a join reports before any strategy is tried. */
  function Opening(id: Guid, connected: bool): seq<string>
  {
    ["Attempting to join conversation: " + Guids.ToString(id)]
    + (if connected then [] else ["Connection is not active. Reconnecting..."])
  }

  /** The start a join makes first when the connection is not Connected. */
  function Starting(connected: bool): seq<HubCall>
  {
    if connected then [] else [Start]
  }

  /** The reference definition of JoinConversation: the opening lines, the
      start when the connection is not Connected, and, unless the start
      failed, the fallback chain from the first strategy. */
  function JoinPlan(id: Guid, userId: Option<string>, connected: bool, hub: HubServer): JoinOutcome
  {
    if !connected && Reply(hub, Start).Fail? then
      JoinOutcome(Starting(connected),
                  Opening(id, connected) + ["Error joining conversation: " + Reply(hub, Start).error.message], false)
    else
      var t := TryFrom(JoinStrategies(id, userId), 0, id, hub);
      JoinOutcome(Starting(connected) + t.calls, Opening(id, connected) + t.lines, t.joined)
  }

  /** The strategy the hub accepts first, if any. */
  function FirstAccepted(calls: seq<HubCall>, hub: HubServer): Option<nat>
  {
    FindFirst(calls, (c: HubCall) => Reply(hub, c).Ok?)
  }

  /** When strategy j is the first from k on that the hub accepts, the
      fallback chain from k invokes exactly the strategies k .. j, reports a
      numbered rejection for each one before j, and succeeds with j. */
  lemma {:induction false} TryFromAccepted(s: seq<HubCall>, k: nat, j: nat, id: Guid, hub: HubServer)
    requires k <= j < |s|
    requires forall i :: k <= i < j ==> Reply(hub, s[i]).Fail?
    requires Reply(hub, s[j]).Ok?
    ensures var t := TryFrom(s, k, id, hub);
            && t.calls == s[k..j + 1]
            && t.lines == RejectionLines(s, k, j, hub) + [SuccessLine(j, id)]
            && t.joined
    decreases j - k
  {
    if k == j {
      assert s[k..j + 1] == [s[k]];
      assert RejectionLines(s, k, k, hub) == [];
    } else {
      TryFromAccepted(s, k + 1, j, id, hub);
      RejectionLinesStep(s, k, j, hub);
      AppendAssoc([RejectionLine(k, MessageOf(Reply(hub, s[k])))], RejectionLines(s, k + 1, j, hub), [SuccessLine(j, id)]);
      assert [s[k]] + s[k + 1..j + 1] == s[k..j + 1];
    }
  }

  /** When the hub rejects every strategy from k on, the fallback chain
      invokes all of them, reports every rejection (then the aggregate error
      on the three-strategy path) and fails. */
  lemma {:induction false} TryFromRejected(s: seq<HubCall>, k: nat, id: Guid, hub: HubServer)
    requires k < |s|
    requires forall i :: k <= i < |s| ==> Reply(hub, s[i]).Fail?
    ensures var t := TryFrom(s, k, id, hub);
            && t.calls == s[k..]
            && t.lines == RejectionLines(s, k, |s|, hub) + (if |s| == 3 then [AllFailedLine(s, hub)] else [])
            && !t.joined
    decreases |s| - k
  {
    RejectionLinesStep(s, k, |s|, hub);
    if k + 1 < |s| {
      TryFromRejected(s, k + 1, id, hub);
      AppendAssoc([RejectionLine(k, MessageOf(Reply(hub, s[k])))], RejectionLines(s, k + 1, |s|, hub),
                  if |s| == 3 then [AllFailedLine(s, hub)] else []);
      assert [s[k]] + s[k + 1..] == s[k..];
    } else {
      assert s[k..] == [s[k]];
      assert RejectionLines(s, k + 1, |s|, hub) == [];
    }
  }

  /** The rejection lines from k are the rejection of k followed by those from k + 1. */
  lemma RejectionLinesStep(s: seq<HubCall>, k: nat, to: nat, hub: HubServer)
    requires k < to <= |s|
    ensures RejectionLines(s, k, to, hub)
            == [RejectionLine(k, MessageOf(Reply(hub, s[k])))] + RejectionLines(s, k + 1, to, hub)
  {
  }

  /** The first three rejection lines as written. */
  lemma RejectionLineSpelled(m: string)
    ensures RejectionLine(0, m) == "Approach 1 failed: " + m
    ensures RejectionLine(1, m) == "Approach 2 failed: " + m
    ensures RejectionLine(2, m) == "Approach 3 failed: " + m
  {
    assert NatToString(1) == "1" && NatToString(2) == "2" && NatToString(3) == "3";
  }

  lemma Concat3(a: string, b: string, c: string)
    ensures Concat([a, b, c]) == a + b + c
  {
    assert [a, b, c][1..] == [b, c];
    assert [b, c][1..] == [c];
    assert Concat([c]) == c + Concat([]);
    assert Concat([b, c]) == b + Concat([c]);
  }

  /** The aggregate message of three causes. */
  lemma AggregateOfThree(message: string, m1: string, m2: string, m3: string)
    ensures AggregateMessage(message, [m1, m2, m3]) == message + " (" + m1 + ")" + " (" + m2 + ")" + " (" + m3 + ")"
  {
    var inner := [m1, m2, m3];
    var parts := seq(|inner|, i requires 0 <= i < |inner| => " (" + inner[i] + ")");
    assert parts == [" (" + m1 + ")", " (" + m2 + ")", " (" + m3 + ")"];
    Concat3(" (" + m1 + ")", " (" + m2 + ")", " (" + m3 + ")");
  }

  /** How many strategies a join tries once the connection is up. */
  function StrategiesTried(id: Guid, userId: Option<string>, hub: HubServer): nat
  {
    match FirstAccepted(JoinStrategies(id, userId), hub)
    case Some(k) => k + 1
    case None => |JoinStrategies(id, userId)|
  }

  /** A failed start ends the join: no strategy is invoked and the result is false. */
  lemma FailedStartInvokesNothing(id: Guid, userId: Option<string>, hub: HubServer)
    requires Reply(hub, Start).Fail?
    ensures JoinPlan(id, userId, false, hub).calls == [Start]
    ensures !JoinPlan(id, userId, false, hub).joined
  {
  }

  /** Otherwise the strategies are invoked in order, after the start when one
      was needed; each is tried only because the one before was rejected, and
      trying stops at the first one accepted, which is then the result. */
  lemma JoinTriesStrategiesInOrder(id: Guid, userId: Option<string>, connected: bool, hub: HubServer)
    requires connected || Reply(hub, Start).Ok?
    ensures var plan, strategies, n := JoinPlan(id, userId, connected, hub), JoinStrategies(id, userId), StrategiesTried(id, userId, hub);
            && 1 <= n <= |strategies|
            && plan.calls == Starting(connected) + strategies[..n]
            && (forall i :: 0 <= i < n - 1 ==> Reply(hub, strategies[i]).Fail?)
            && (plan.joined <==> Reply(hub, strategies[n - 1]).Ok?)
            && (n < |strategies| ==> plan.joined)
  {
    var s := JoinStrategies(id, userId);
    match FirstAccepted(s, hub)
    case Some(j) =>
      TryFromAccepted(s, 0, j, id, hub);
      assert s[0..j + 1] == s[..j + 1];
    case None =>
      TryFromRejected(s, 0, id, hub);
      assert s[0..] == s[..|s|] == s;
  }

  /** With the first strategy accepted, it is the only invocation (the
      connection already being connected). */
  lemma FirstStrategyShortCircuits(id: Guid, userId: Option<string>, hub: HubServer)
    requires Reply(hub, Invoke(JoinTarget, [GuidArg(id)])).Ok?
    ensures JoinPlan(id, userId, true, hub).calls == [Invoke(JoinTarget, [GuidArg(id)])]
    ensures JoinPlan(id, userId, true, hub).joined
  {
    var s := JoinStrategies(id, userId);
    assert s[0] == Invoke(JoinTarget, [GuidArg(id)]);
  }

  /** Without a user id, two rejections end the join: strategy 3 is never
      invoked, the result is false and no aggregate error is reported. */
  lemma NoUserIdStopsAfterTwo(id: Guid, userId: Option<string>, hub: HubServer)
    requires IsNullOrEmpty(userId)
    requires Reply(hub, Invoke(JoinTarget, [GuidArg(id)])).Fail?
    requires Reply(hub, Invoke(JoinTarget, [StringArg(Guids.ToString(id))])).Fail?
    ensures var plan := JoinPlan(id, userId, true, hub);
            && plan.calls == [Invoke(JoinTarget, [GuidArg(id)]), Invoke(JoinTarget, [StringArg(Guids.ToString(id))])]
            && !plan.joined
            && plan.lines == ["Attempting to join conversation: " + Guids.ToString(id),
                              "Approach 1 failed: " + Reply(hub, Invoke(JoinTarget, [GuidArg(id)])).error.message,
                              "Approach 2 failed: " + Reply(hub, Invoke(JoinTarget, [StringArg(Guids.ToString(id))])).error.message]
  {
    var s := JoinStrategies(id, userId);
    assert s == [Invoke(JoinTarget, [GuidArg(id)]), Invoke(JoinTarget, [StringArg(Guids.ToString(id))])];
    var m1, m2 := Reply(hub, s[0]).error.message, Reply(hub, s[1]).error.message;
    RejectionLineSpelled(m1);
    RejectionLineSpelled(m2);
    assert TryFrom(s, 1, id, hub).lines == [RejectionLine(1, m2)];
  }

  /** With a user id and every strategy rejected, each rejection is reported
      in order, then one aggregate error naming all three causes. */
  lemma AllStrategiesRejected(id: Guid, user: string, hub: HubServer)
    requires user != ""
    requires Reply(hub, JoinStrategies(id, Some(user))[0]).Fail?
    requires Reply(hub, JoinStrategies(id, Some(user))[1]).Fail?
    requires Reply(hub, JoinStrategies(id, Some(user))[2]).Fail?
    ensures var plan, s := JoinPlan(id, Some(user), true, hub), JoinStrategies(id, Some(user));
            var m1, m2, m3 := Reply(hub, s[0]).error.message, Reply(hub, s[1]).error.message, Reply(hub, s[2]).error.message;
            && plan.calls == s
            && !plan.joined
            && plan.lines == ["Attempting to join conversation: " + Guids.ToString(id),
                              "Approach 1 failed: " + m1,
                              "Approach 2 failed: " + m2,
                              "Approach 3 failed: " + m3,
                              "Error joining conversation: " + AllFailedMessage + " (" + m1 + ")" + " (" + m2 + ")" + " (" + m3 + ")"]
  {
    var s := JoinStrategies(id, Some(user));
    var m1, m2, m3 := Reply(hub, s[0]).error.message, Reply(hub, s[1]).error.message, Reply(hub, s[2]).error.message;
    RejectionLineSpelled(m1);
    RejectionLineSpelled(m2);
    RejectionLineSpelled(m3);
    assert FailureMessages(s, hub) == [m1, m2, m3];
    AggregateOfThree(AllFailedMessage, m1, m2, m3);
    var last := AllFailedLine(s, hub);
    assert last == "Error joining conversation: " + AllFailedMessage + " (" + m1 + ")" + " (" + m2 + ")" + " (" + m3 + ")";
    assert TryFrom(s, 2, id, hub).lines == [RejectionLine(2, m3), last];
    assert TryFrom(s, 1, id, hub).lines == [RejectionLine(1, m2), RejectionLine(2, m3), last];
    assert s == [s[0], s[1], s[2]];
  }

  /** Rejections of strategies 1 and 2 followed by acceptance of 3 join, with
      exactly the three invocations, in order. */
  lemma ThirdStrategyJoins(id: Guid, user: string, hub: HubServer)
    requires user != ""
    requires Reply(hub, JoinStrategies(id, Some(user))[0]).Fail?
    requires Reply(hub, JoinStrategies(id, Some(user))[1]).Fail?
    requires Reply(hub, JoinStrategies(id, Some(user))[2]).Ok?
    ensures JoinPlan(id, Some(user), true, hub).calls == JoinStrategies(id, Some(user))
    ensures JoinPlan(id, Some(user), true, hub).joined
  {
    var s := JoinStrategies(id, Some(user));
    assert TryFrom(s, 2, id, hub).calls == [s[2]];
    assert TryFrom(s, 1, id, hub).calls == [s[1], s[2]];
    assert s == [s[0], s[1], s[2]];
  }

  /** The single invocation SendMessage makes. */
  function SendCall(id: Guid, message: string): HubCall
  {
    Invoke(SendTarget, [GuidArg(id), StringArg(message)])
  }

  class ChatHubClient {
    const connection: HubConnection
    const userId: Option<string>
    /** The status callback. */
    const sink: StatusSink
    /** The message callback slot: at most one callback at a time. */
    var messageCallback: Option<Callback>
    /** Every message handed to a callback, with the callback it went to. */
    var delivered: seq<(Callback, Message)>

    /** `new ChatHubClient(connection, userId, statusCallback)`; subscribes the handlers. */
    constructor(connection: HubConnection, userId: Option<string>, sink: StatusSink)
      modifies connection
      ensures this.connection == connection && this.userId == userId && this.sink == sink
      ensures messageCallback.None? && delivered == []
      ensures connection.handlers == old(connection.handlers) + ChatHubEvents
      ensures connection.state == old(connection.state) && connection.calls == old(connection.calls)
    {
      this.connection := connection;
      this.userId := userId;
      this.sink := sink;
      messageCallback := None;
      delivered := [];
      new;
      RegisterEventHandlers();
    }

    /** Subscribes the four hub events and the three lifecycle events. */
    method RegisterEventHandlers()
      modifies connection
      ensures connection.handlers == old(connection.handlers) + ChatHubEvents
      ensures connection.state == old(connection.state) && connection.calls == old(connection.calls)
    {
      connection.On("ReceiveMessage");
      connection.On("SystemMessage");
      connection.On("ChatConnected");
      connection.On("JoinedConversation");
      connection.On("Reconnecting");
      connection.On("Reconnected");
      connection.On("Closed");
    }

    /** Replaces whatever callback was set: the last registration wins. */
    method SetMessageCallback(callback: Option<Callback>)
      modifies this
      ensures messageCallback == callback && delivered == old(delivered)
    {
      messageCallback := callback;
    }

    /** The handler subscribed for e: ReceiveMessage goes to the current
        message callback, if any, and to nothing else; every other event
        becomes one status line; lifecycle events are reported after the
        library has moved the connection to its new state. */
    method Handle(e: HubEvent) returns (invoked: Option<Callback>)
      modifies this, connection, sink
      ensures messageCallback == old(messageCallback)
      ensures invoked == if e.ReceiveMessage? then messageCallback else None
      ensures delivered == old(delivered) + (if invoked.Some? then [(invoked.value, e.message)] else [])
      ensures sink.lines == old(sink.lines) + EventStatus(e)
      ensures connection.state == StateAfter(old(connection.state), e)
      ensures connection.calls == old(connection.calls) && connection.handlers == old(connection.handlers)
    {
      invoked := None;
      match e
      case ReceiveMessage(m) =>
        if messageCallback.Some? {
          invoked := messageCallback;
          delivered := delivered + [(messageCallback.value, m)];
        }
      case SystemMessage(m) =>
        sink.Post(SystemPrefix + m);
      case ChatConnected(m) =>
        sink.Post(HubReadyPrefix + m);
      case JoinedConversation(id) =>
        sink.Post(JoinedPrefix + Guids.ToString(id));
      case Reconnecting(err) =>
        connection.state := ConnectionState.Reconnecting;
        sink.Post(ReconnectingPrefix + (if err.Some? then err.value.message else "Connection lost"));
      case Reconnected(cid) =>
        connection.state := Connected;
        sink.Post(ReconnectedPrefix + (if cid.Some? then cid.value else ""));
      case Closed(err) =>
        connection.state := Disconnected;
        if err.Some? {
          sink.Post(ClosedWithErrorPrefix + err.value.message);
        } else {
          sink.Post(ClosedLine);
        }
    }

    /** Joins a conversation: starts the connection when it is not
        Connected, then tries the strategies in order, as JoinPlan states. */
    method JoinConversation(conversationId: Guid, hub: HubServer) returns (joined: bool)
      modifies connection, sink
      ensures var plan := JoinPlan(conversationId, userId, old(connection.state) == Connected, hub);
              && joined == plan.joined
              && connection.calls == old(connection.calls) + plan.calls
              && sink.lines == old(sink.lines) + plan.lines
      ensures connection.handlers == old(connection.handlers)
      ensures connection.state ==
                if old(connection.state) == Connected || Reply(hub, Start).Ok? then Connected else old(connection.state)
    {
      ghost var connected := connection.state == Connected;
      sink.Post("Attempting to join conversation: " + Guids.ToString(conversationId));
      if connection.state != Connected {
        sink.Post("Connection is not active. Reconnecting...");
        var started := connection.StartAsync(hub);
        if started.Fail? {
          sink.Post("Error joining conversation: " + started.error.message);
          return false;
        }
      }
      ghost var lines0, calls0 := sink.lines, connection.calls;
      assert lines0 == old(sink.lines) + Opening(conversationId, connected);
      assert calls0 == old(connection.calls) + Starting(connected);
      var strategies := JoinStrategies(conversationId, userId);
      assert FailureMessages(strategies[..0], hub) == [];
      joined := TryApproach(strategies, 0, [], conversationId, hub);
      ghost var t := TryFrom(strategies, 0, conversationId, hub);
      AppendAssoc(old(sink.lines), Opening(conversationId, connected), t.lines);
      AppendAssoc(old(connection.calls), Starting(connected), t.calls);
    }

    /** Approach k of the fallback chain and, when the hub rejects it, the
        ones after it; `failures` holds the causes of the rejections so far. */
    method TryApproach(strategies: seq<HubCall>, k: nat, failures: seq<string>, conversationId: Guid, hub: HubServer)
      returns (joined: bool)
      requires k < |strategies| && forall i :: 0 <= i < |strategies| ==> strategies[i].Invoke?
      requires failures == FailureMessages(strategies[..k], hub)
      requires connection.state == Connected
      modifies connection, sink
      ensures var t := TryFrom(strategies, k, conversationId, hub);
              && joined == t.joined
              && connection.calls == old(connection.calls) + t.calls
              && sink.lines == old(sink.lines) + t.lines
      ensures connection.handlers == old(connection.handlers) && connection.state == Connected
      decreases |strategies| - k
    {
      var r := Attempt(strategies[k], k, conversationId, hub);
      if r.Ok? {
        return true;
      }
      ghost var calls1, lines1 := connection.calls, sink.lines;
      ghost var line := RejectionLine(k, r.error.message);
      assert strategies[..k + 1][..k] == strategies[..k];
      assert failures + [r.error.message] == FailureMessages(strategies[..k + 1], hub);
      if k + 1 < |strategies| {
        joined := TryApproach(strategies, k + 1, failures + [r.error.message], conversationId, hub);
        ghost var rest := TryFrom(strategies, k + 1, conversationId, hub);
        AppendAssoc(old(connection.calls), [strategies[k]], rest.calls);
        AppendAssoc(old(sink.lines), [line], rest.lines);
      } else {
        if |strategies| == 3 {
          assert strategies[..k + 1] == strategies;
          sink.Post("Error joining conversation: " + AggregateMessage(AllFailedMessage, failures + [r.error.message]));
          AppendAssoc(old(sink.lines), [line], [AllFailedLine(strategies, hub)]);
        }
        joined := false;
      }
    }

    /** One join approach: the invocation, then the success line when the
        hub accepts it or "Approach k+1 failed" with the cause when it does not. */
    method Attempt(call: HubCall, k: nat, conversationId: Guid, hub: HubServer) returns (r: Outcome)
      requires connection.state == Connected && call.Invoke?
      modifies connection, sink
      ensures r == Reply(hub, call)
      ensures connection.calls == old(connection.calls) + [call]
      ensures connection.handlers == old(connection.handlers) && connection.state == Connected
      ensures sink.lines == old(sink.lines)
                + [if r.Ok? then SuccessLine(k, conversationId) else RejectionLine(k, r.error.message)]
    {
      r := connection.InvokeAsync(call.target, call.args, hub);
      if r.Ok? {
        sink.Post(SuccessLine(k, conversationId));
      } else {
        sink.Post(RejectionLine(k, r.error.message));
      }
    }

    /** One invocation of SendMessage; a failure is reported and yields false. */
    method SendMessage(conversationId: Guid, message: string, hub: HubServer) returns (sent: bool)
      modifies connection, sink
      ensures var outcome := if old(connection.state) == Connected then Reply(hub, SendCall(conversationId, message))
                             else Fail(Exn(NotActiveMessage, None));
              && sent == outcome.Ok?
              && sink.lines == old(sink.lines) + (if sent then [] else ["Error sending message: " + outcome.error.message])
      ensures connection.calls == old(connection.calls) + [SendCall(conversationId, message)]
      ensures connection.state == old(connection.state) && connection.handlers == old(connection.handlers)
    {
      var r := connection.InvokeAsync(SendTarget, [GuidArg(conversationId), StringArg(message)], hub);
      if r.Ok? {
        return true;
      }
      sink.Post("Error sending message: " + r.error.message);
      return false;
    }

    /** The state of the underlying connection, as the connection itself reports it. */
    function GetConnectionState(): (r: ConnectionState)
      reads connection
      ensures r == connection.state
    {
      connection.state
    }

    /** Starts the connection only when it is not Connected: no call at all
        when it is, exactly one start attempt otherwise. */
    method ReconnectIfNeeded(hub: HubServer) returns (ok: bool)
      modifies connection, sink
      ensures old(connection.state) == Connected ==>
                ok && connection.calls == old(connection.calls) && sink.lines == old(sink.lines)
      ensures old(connection.state) != Connected ==>
                && connection.calls == old(connection.calls) + [Start]
                && ok == Reply(hub, Start).Ok?
                && sink.lines == old(sink.lines) + (if ok then [] else ["Reconnection failed: " + Reply(hub, Start).error.message])
      ensures connection.state == if ok then Connected else old(connection.state)
      ensures connection.handlers == old(connection.handlers)
    {
      if connection.state != Connected {
        var r := connection.StartAsync(hub);
        if r.Ok? {
          return true;
        }
        sink.Post("Reconnection failed: " + r.error.message);
        return false;
      }
      return true;
    }
  }
}

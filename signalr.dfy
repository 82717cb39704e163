/** A stand-in for the SignalR client library's HubConnection, reduced to
    what the tester observes: the connection state, the handlers subscribed,
    and the calls made on it, answered by a hub server given as a function.
    Transport, framing and the reconnect backoff are not modelled. */
module SignalR {
  import opened Common
  import opened Guids

  datatype ConnectionState = Disconnected | Connecting | Connected | Reconnecting

  /** An argument of InvokeAsync. */
  datatype Arg = GuidArg(guid: Guid) | StringArg(text: string)

  /** A call made on a connection: StartAsync, or InvokeAsync(target, args...). */
  datatype HubCall = Start | Invoke(target: string, args: seq<Arg>)

  /** The hub server's answer to each call. */
  type HubServer = HubCall -> Outcome

  /** The answer `hub` gives to `call` (the state of the tester plays no part in it). */
  function Reply(hub: HubServer, call: HubCall): Outcome
  {
    hub(call)
  }

  /** What HubConnectionBuilder is configured with: the URL, the value the
      access-token provider yields, extra request headers, and whether
      automatic reconnect is on. */
  datatype HubOptions = HubOptions(
    url: string,
    accessToken: string,
    headers: seq<(string, string)>,
    automaticReconnect: bool)

  /** The library refuses an invocation while the connection is not active. */
  const NotActiveMessage := "The 'InvokeCoreAsync' method cannot be called if the connection is not active"

  /** An `Action<string>` status callback, as the lines it has been given. */
  class StatusSink {
    var lines: seq<string>

    constructor()
      ensures lines == []
    {
      lines := [];
    }

    method Post(line: string)
      modifies this
      ensures lines == old(lines) + [line]
    {
      lines := lines + [line];
    }
  }

  class HubConnection {
    const options: HubOptions
    var state: ConnectionState
    /** Names of the events handlers are subscribed to, in subscription order. */
    var handlers: seq<string>
    /** Every StartAsync and InvokeAsync made, in order. */
    var calls: seq<HubCall>

    /** HubConnectionBuilder.Build(): an unstarted connection. */
    constructor(options: HubOptions)
      ensures this.options == options && state == Disconnected && handlers == [] && calls == []
    {
      this.options := options;
      state := Disconnected;
      handlers := [];
      calls := [];
    }

    method StartAsync(hub: HubServer) returns (r: Outcome)
      modifies this
      ensures r == Reply(hub, Start)
      ensures calls == old(calls) + [Start] && handlers == old(handlers)
      ensures state == if r.Ok? then Connected else old(state)
    {
      calls := calls + [Start];
      r := hub(Start);
      if r.Ok? {
        state := Connected;
      }
    }

    method InvokeAsync(target: string, args: seq<Arg>, hub: HubServer) returns (r: Outcome)
      modifies this
      ensures r == if old(state) == Connected then Reply(hub, Invoke(target, args)) else Fail(Exn(NotActiveMessage, None))
      ensures calls == old(calls) + [Invoke(target, args)]
      ensures handlers == old(handlers) && state == old(state)
    {
      calls := calls + [Invoke(target, args)];
      r := if state == Connected then hub(Invoke(target, args)) else Fail(Exn(NotActiveMessage, None));
    }

    /** `On(eventName, handler)`, and the `+=` subscriptions to lifecycle events. */
    method On(eventName: string)
      modifies this
      ensures handlers == old(handlers) + [eventName]
      ensures calls == old(calls) && state == old(state)
    {
      handlers := handlers + [eventName];
    }
  }
}

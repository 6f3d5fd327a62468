/** Every step keeps the two sides' histories in agreement. */
module HistorySafety {
  import opened Messages
  import opened Control
  import opened Protocol
  import opened Invariant

  /** A chain of states has at most four links, and each position admits few states. */
  lemma ChainShape(c: Config, states: seq<State>)
    requires Chain(c, states)
    ensures |states| <= 4
    ensures |states| > 1 ==> states[1] == CreateStreams(c.cookie)
    ensures |states| > 2 ==> states[2].Running? || states[2].Terminate?
    ensures |states| > 3 ==> states[2].Running? && (states[3].ExchangeResults? || states[3].Terminate?)
    ensures var last := states[|states| - 1];
            && (last.Start? <==> |states| == 1) && (last.CreateStreams? <==> |states| == 2)
            && (last.Running? <==> |states| == 3 && states[2].Running?)
            && (last.ExchangeResults? ==> |states| == 4)
  {
    if |states| > 1 { assert Follows(c, states[0], states[1]); }
    if |states| > 2 { assert Follows(c, states[1], states[2]); }
    if |states| > 3 { assert Follows(c, states[2], states[3]); }
    assert |states| > 4 ==> Follows(c, states[3], states[4]);
  }

  /** A prefix of a chain is a chain, so its last state says how long it is. */
  lemma PrefixShape(c: Config, states: seq<State>, prefix: seq<State>)
    requires Chain(c, states) && prefix != [] && prefix <= states
    ensures Chain(c, prefix)
  {
    forall i | 0 < i < |prefix| ensures Follows(c, prefix[i - 1], prefix[i]) {
      assert prefix[i - 1] == states[i - 1] && prefix[i] == states[i];
    }
  }

  lemma ChainExtends(c: Config, states: seq<State>, next: State)
    requires Chain(c, states) && Follows(c, states[|states| - 1], next)
    ensures Chain(c, states + [next])
  {
  }

  lemma SetStatesAppend(states: seq<State>, from: nat, next: State)
    requires from <= |states|
    ensures SetStates((states + [next])[from..]) == SetStates(states[from..]) + [SetState(next)]
  {
    assert (states + [next])[from..] == states[from..] + [next];
  }

  lemma SetStatesHead(states: seq<State>, from: nat)
    requires from < |states|
    ensures SetStates(states[from..]) == [SetState(states[from])] + SetStates(states[from + 1..])
  {
  }

  /** The server writes a state that may follow its own. */
  lemma AnnounceKeepsHistory(c: Config, n: Net, s: Side)
    requires HistoryInv(c, n) && n.server.Alive() && !n.server.pc.Announced?
    requires s.role.Server? && s.history == n.server.history && s.state == n.server.state
    requires s.pc.Announced? || s.pc.Top?
    requires s.pc.Announced? ==> Follows(c, n.server.state, s.pc.next)
    ensures HistoryInv(c, Announce(n, s))
  {
    if s.pc.Announced? {
      ChainExtends(c, n.script, s.pc.next);
      SetStatesAppend(n.script, |Followed(n)|, s.pc.next);
    }
  }

  lemma CommitKeepsHistory(c: Config, n: Net)
    requires HistoryInv(c, n) && Enabled(c, n, CommitState)
    ensures HistoryInv(c, Apply(c, n, CommitState))
  {
  }

  /** The first message the client has not read: the next state, or else the server's results. */
  lemma FirstPending(c: Config, n: Net)
    requires HistoryInv(c, n) && n.toClient != [] && n.client.remote.None?
    ensures |Followed(n)| < |n.script| ==> n.toClient[0] == SetState(n.script[|Followed(n)|])
    ensures |Followed(n)| == |n.script| ==>
              n.toClient == PendingReply(n) && n.toClient == [ServerResults(n.server.results)]
  {
    if |Followed(n)| < |n.script| {
      SetStatesHead(n.script, |Followed(n)|);
    }
  }

  /** A client at its message wait has followed everything it has been in; what it reads comes next. */
  lemma FollowsNext(c: Config, n: Net)
    requires HistoryInv(c, n) && PcFits(n.client) && ExchangeInv(n) && Enabled(c, n, Follow)
    ensures !n.stopped && n.client.remote.None? && 0 < |n.client.history| < |n.script|
    ensures n.toClient[0] == SetState(n.script[|n.client.history|])
    ensures Follows(c, n.client.state, n.script[|n.client.history|])
  {
    var k := |n.client.history|;
    PrefixShape(c, n.script, n.client.history);
    ChainShape(c, n.client.history);
    ChainShape(c, n.script);
    FirstPending(c, n);
    if k == |n.script| {
      PrefixShape(c, n.script, n.server.history);
      ChainShape(c, n.server.history);
      assert false;
    }
    assert Follows(c, n.script[k - 1], n.script[k]);
  }

  lemma FollowKeepsHistory(c: Config, n: Net)
    requires HistoryInv(c, n) && PcFits(n.client) && ExchangeInv(n) && Enabled(c, n, Follow)
    ensures HistoryInv(c, Apply(c, n, Follow))
    ensures n.toClient[0].SetState? && Follows(c, n.client.state, n.toClient[0].state)
  {
    FollowsNext(c, n);
    var k, m := |n.client.history|, Apply(c, n, Follow);
    SetStatesHead(n.script, k);
    assert n.client.history + [n.script[k]] <= n.script;
    assert m.toClient == SetStates(n.script[k + 1..]) + PendingReply(m);
  }

  /** A client that stops on its own account adds Terminate to its history and follows no more. */
  lemma StopKeepsHistory(c: Config, n: Net, s: Side)
    requires HistoryInv(c, n) && n.client.pc.Select? && n.client.remote.None?
    requires s == RequestState(s.(state := n.client.state, history := n.client.history), Terminate)
    requires s.role.Client? && s.remote == n.client.remote
    ensures HistoryInv(c, n.(client := s, stopped := true))
  {
    assert Followed(n.(client := s, stopped := true)) == n.client.history;
  }

  /** Steps that leave states, histories and the control connection alone. */
  lemma QuietKeepsHistory(c: Config, n: Net, m: Net)
    requires HistoryInv(c, n)
    requires m.script == n.script && m.toClient == n.toClient && m.stopped == n.stopped
    requires m.server.role == n.server.role && m.client.role == n.client.role
    requires m.server.state == n.server.state && m.server.history == n.server.history
    requires m.client.state == n.client.state && m.client.history == n.client.history
    requires m.server.pc == n.server.pc || m.server.pc.Aborted?
             || (!n.server.pc.Announced? && !n.server.pc.Aborted? && !m.server.pc.Announced?)
    requires n.stopped ==> !m.client.pc.Select? && !m.client.pc.AwaitWelcome?
    requires PendingReply(m) == PendingReply(n)
    ensures HistoryInv(c, m)
  {
  }

  /** The server never answers before it has ended the exchange, and answers once. */
  lemma ReplyKeepsHistory(c: Config, n: Net)
    requires HistoryInv(c, n) && SideInv(c, n.server) && ExchangeInv(n) && Enabled(c, n, Reply)
    ensures HistoryInv(c, Apply(c, n, Reply))
  {
    assert PendingReply(n) == [] && n.client.remote.None?;
  }

  /** A client that waits for results has followed the whole script, so the reply is what it reads. */
  lemma TakeReplyKeepsHistory(c: Config, n: Net)
    requires HistoryInv(c, n) && SideInv(c, n.client) && ExchangeInv(n) && Enabled(c, n, TakeResults(Client))
    ensures HistoryInv(c, Apply(c, n, TakeResults(Client)))
    ensures n.toClient == [ServerResults(n.server.results)] && n.server.pc.Done? && n.server.state.ExchangeResults?
  {
    PrefixShape(c, n.script, n.client.history);
    ChainShape(c, n.client.history);
    ChainShape(c, n.script);
    FirstPending(c, n);
    assert Followed(n) == n.script;
  }

  /** A server is asked to accept a stream only while it is creating streams. */
  predicate AcceptsInTime(s: Side) {
    s.queue != [] && s.queue[0].CreateStream? ==> s.state.CreateStreams?
  }

  lemma MessageKeepsHistory(c: Config, n: Net, role: Role)
    requires HistoryInv(c, n) && SideInv(c, SideOf(n, role)) && ExchangeInv(n)
    requires role.Server? ==> AcceptsInTime(n.server)
    requires Enabled(c, n, TakeMessage(role))
    ensures HistoryInv(c, Apply(c, n, TakeMessage(role)))
  {
    var s := SideOf(n, role);
    assert s.queue[0] in s.queue;
    if role.Server? {
      AnnounceKeepsHistory(c, n, HandleInternal(c.params, n.server));
    } else if n.client.queue[0].Stop? {
      StopKeepsHistory(c, n, HandleInternal(c.params, n.client));
    } else {
      QuietKeepsHistory(c, n, Apply(c, n, TakeMessage(role)));
    }
  }

  lemma ShutDownKeepsHistory(c: Config, n: Net, role: Role)
    requires HistoryInv(c, n) && SideInv(c, SideOf(n, role)) && ExchangeInv(n) && Enabled(c, n, ShutDown(role))
    ensures HistoryInv(c, Apply(c, n, ShutDown(role)))
  {
    if role.Server? {
      AnnounceKeepsHistory(c, n, RequestState(n.server, Terminate));
    } else {
      StopKeepsHistory(c, n, RequestState(n.client, Terminate));
    }
  }

  lemma WakeUpKeepsHistory(c: Config, n: Net, role: Role, shutdown: bool)
    requires HistoryInv(c, n) && Enabled(c, n, WakeUp(role, shutdown))
    ensures HistoryInv(c, Apply(c, n, WakeUp(role, shutdown)))
  {
    QuietKeepsHistory(c, n, Apply(c, n, WakeUp(role, shutdown)));
  }

  lemma WindUpKeepsHistory(c: Config, n: Net, role: Role)
    requires HistoryInv(c, n) && Enabled(c, n, WindUp(role))
    ensures HistoryInv(c, Apply(c, n, WindUp(role)))
  {
    QuietKeepsHistory(c, n, Apply(c, n, WindUp(role)));
  }

  lemma DrainKeepsHistory(c: Config, n: Net, role: Role, id: nat)
    requires HistoryInv(c, n) && Enabled(c, n, Drain(role, id))
    ensures HistoryInv(c, Apply(c, n, Drain(role, id)))
  {
    QuietKeepsHistory(c, n, Apply(c, n, Drain(role, id)));
  }

  lemma DrainEndsKeepsHistory(c: Config, n: Net, role: Role)
    requires HistoryInv(c, n) && Enabled(c, n, DrainEnds(role))
    ensures HistoryInv(c, Apply(c, n, DrainEnds(role)))
  {
    QuietKeepsHistory(c, n, Apply(c, n, DrainEnds(role)));
  }

  lemma AbortKeepsHistory(c: Config, n: Net, role: Role)
    requires HistoryInv(c, n) && Enabled(c, n, Abort(role))
    ensures HistoryInv(c, Apply(c, n, Abort(role)))
  {
    QuietKeepsHistory(c, n, Apply(c, n, Abort(role)));
  }

  lemma TakeResultsKeepsHistory(c: Config, n: Net)
    requires HistoryInv(c, n) && Enabled(c, n, TakeResults(Server))
    ensures HistoryInv(c, Apply(c, n, TakeResults(Server)))
  {
    QuietKeepsHistory(c, n, Apply(c, n, TakeResults(Server)));
  }

  lemma ConnectingKeepsHistory(c: Config, n: Net, step: Step)
    requires HistoryInv(c, n) && SideInv(c, n.client) && (step.Connect? || step.ReadWelcome?) && Enabled(c, n, step)
    ensures HistoryInv(c, Apply(c, n, step))
  {
    QuietKeepsHistory(c, n, Apply(c, n, step));
  }

  lemma AcceptLoopKeepsHistory(c: Config, n: Net, step: Step)
    requires HistoryInv(c, n) && Enabled(c, n, step)
    requires step.Admit? || step.TurnAway? || step.CheckCookie? || step.NewTestInstead?
    ensures HistoryInv(c, Apply(c, n, step))
  {
    QuietKeepsHistory(c, n, Apply(c, n, step));
  }

  lemma EnqueueKeepsHistory(c: Config, n: Net, m: ControllerMessage, gate: Gate)
    requires HistoryInv(c, n)
    ensures HistoryInv(c, n.(server := TrySend(n.server, m), gate := gate))
  {
    QuietKeepsHistory(c, n, n.(server := TrySend(n.server, m), gate := gate));
  }

  lemma WorkerKeepsHistory(c: Config, n: Net, role: Role, id: nat, task: Task, conns: seq<Conn>)
    requires HistoryInv(c, n) && id < |SideOf(n, role).streams|
    ensures var s := SetTask(SideOf(n, role), id, task);
            && HistoryInv(c, WithSide(n.(conns := conns), role, s))
            && HistoryInv(c, WithSide(n.(conns := conns), role, TrySend(s, StreamTerminated(id))))
  {
    var s := SetTask(SideOf(n, role), id, task);
    SideKeepsHistory(c, n, role, s, conns);
    SideKeepsHistory(c, n, role, TrySend(s, StreamTerminated(id)), conns);
  }

  /** A side's queue and streams, and the data connections, are no part of its history. */
  lemma SideKeepsHistory(c: Config, n: Net, role: Role, s: Side, conns: seq<Conn>)
    requires HistoryInv(c, n) && s == SideOf(n, role).(queue := s.queue, streams := s.streams)
    ensures HistoryInv(c, WithSide(n.(conns := conns), role, s))
  {
    QuietKeepsHistory(c, n, WithSide(n.(conns := conns), role, s));
  }
}

/** Every step keeps the invariant of the exchange of results. */
module ExchangeSafety {
  import opened Messages
  import opened Control
  import opened Protocol
  import opened Invariant
  import HistorySafety

  /** Steps of one side that neither end its drain nor touch what has been exchanged. */
  lemma SideKeepsExchange(n: Net, role: Role, s: Side)
    requires ExchangeInv(n) && s.remote == SideOf(n, role).remote
    requires SideOf(n, role).pc.Aborted? || SideOf(n, role).pc.Done? ==>
               s.results == SideOf(n, role).results && s.state == SideOf(n, role).state && s.pc == SideOf(n, role).pc
    requires HasSentResults(SideOf(n, role)) || SideOf(n, role).pc.Replying? ==>
               s.results == SideOf(n, role).results && s.state == SideOf(n, role).state
               && (s.pc == SideOf(n, role).pc || s.pc.Aborted?)
    requires s.pc == SideOf(n, role).pc || Early(s.pc) || s.pc.Draining? || s.pc.Aborted?
    ensures ExchangeInv(WithSide(n, role, s))
  {
  }

  lemma DrainEndsKeepsExchange(c: Config, n: Net, role: Role)
    requires ExchangeInv(n) && Enabled(c, n, DrainEnds(role))
    ensures ExchangeInv(Apply(c, n, DrainEnds(role)))
  {
  }

  lemma ServerTakesKeepsExchange(c: Config, n: Net)
    requires ExchangeInv(n) && Enabled(c, n, TakeResults(Server))
    ensures ExchangeInv(Apply(c, n, TakeResults(Server)))
  {
  }

  lemma ClientTakesKeepsExchange(c: Config, n: Net)
    requires ExchangeInv(n) && PcFits(n.client) && Enabled(c, n, TakeResults(Client))
    requires n.toClient == [ServerResults(n.server.results)] && n.server.pc.Done? && n.server.state.ExchangeResults?
    ensures ExchangeInv(Apply(c, n, TakeResults(Client)))
  {
  }

  lemma TakeResultsKeepsExchange(c: Config, n: Net, role: Role)
    requires ExchangeInv(n) && HistoryInv(c, n) && SideInv(c, SideOf(n, role)) && Enabled(c, n, TakeResults(role))
    ensures ExchangeInv(Apply(c, n, TakeResults(role)))
  {
    if role.Server? {
      ServerTakesKeepsExchange(c, n);
    } else {
      HistorySafety.TakeReplyKeepsHistory(c, n);
      ClientTakesKeepsExchange(c, n);
    }
  }

  lemma ReplyKeepsExchange(c: Config, n: Net)
    requires ExchangeInv(n) && SideInv(c, n.server) && Enabled(c, n, Reply)
    ensures ExchangeInv(Apply(c, n, Reply))
  {
  }

  /** Announcing a state only adds to the control connection. */
  lemma AnnounceKeepsExchange(n: Net, s: Side)
    requires ExchangeInv(n) && Early(n.server.pc) && s.remote == n.server.remote && Early(s.pc)
    ensures ExchangeInv(Announce(n, s))
  {
  }
}

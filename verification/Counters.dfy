/** What each branch arm counts. */
module Counters {
  import opened Tcp
  import opened Machine

  function One(b: bool): nat {
    if b then 1 else 0
  }

  // ---------- the setup ----------

  lemma ClientCountsC(b: ClientBranch)
    ensures ClientCountC(b)[RecvSyn] == One(b == OpenSyn) && ClientCountC(b)[RecvSynAck2] == One(b == HandshakeAck)
  {
    hide ClientCountC;
    ClientOpens(b);
    ClientShakes(b);
  }

  lemma ClientShakes(b: ClientBranch)
    ensures ClientCountC(b)[RecvSynAck2] == One(b == HandshakeAck)
  {
  }

  lemma ClientCountsS(b: ClientBranch)
    ensures ClientCountS(b)[SentSyn] == One(b == FirstPayload) && ClientCountS(b)[SentSynAck2] == 0
  {
  }

  lemma ServerCountsC(b: ServerBranch)
    ensures ServerCountC(b)[RecvSyn] == 0 && ServerCountC(b)[RecvSynAck2] == 0
  {
  }

  lemma ServerCountsS(b: ServerBranch)
    ensures ServerCountS(b)[SentSyn] == 0 && ServerCountS(b)[SentSynAck2] == One(b == SynAckAccepted)
  {
  }

  // ---------- the two sides of one statistic ----------

  /** Statistics that are advanced together, and the early closes that explain the rest. */
  predicate Paired(c: Counter, s: Counter) {
    && c[RecvSyn] == c[SentSynAck] && c[RecvPayload] == s[SentSyn] && s[SentSynAck2] == s[SentPayload]
    && c[SentFin] == s[RecvFin] && c[RecvFinPssv] == s[SentFinPssv] && c[RecvAck4Fin] == s[SentAck4Fin]
    && c[RecvFin] + s[RecvFinPssv] == s[SentFin] + c[SentFinPssv]
    && c[SentFinPssv] + s[RecvAck4Fin] == s[RecvFinPssv] + c[SentAck4Fin]
    && s[SentSynAck2] <= s[RecvSynAck]
  }

  lemma ClientPaired(b: ClientBranch)
    ensures Paired(ClientCountC(b), ClientCountS(b))
  {
    ClientSetupC(b);
    ClientSetupS(b);
    ClientClosingC(b);
    ClientClosingS(b);
    hide ClientCountC, ClientCountS;
  }

  lemma ClientSetupC(b: ClientBranch)
    ensures var c := ClientCountC(b);
      c[RecvSyn] == c[SentSynAck] == One(b == OpenSyn) && c[RecvPayload] == One(b == FirstPayload)
  {
    hide ClientCountC;
    ClientOpens(b);
    ClientPays(b);
  }

  lemma ClientOpens(b: ClientBranch)
    ensures ClientCountC(b)[RecvSyn] == ClientCountC(b)[SentSynAck] == One(b == OpenSyn)
  {
  }

  lemma ClientPays(b: ClientBranch)
    ensures ClientCountC(b)[RecvPayload] == One(b == FirstPayload)
  {
  }

  lemma ClientSetupS(b: ClientBranch)
    ensures var s := ClientCountS(b);
      s[SentSyn] == One(b == FirstPayload) && s[SentSynAck2] == s[SentPayload] == s[RecvSynAck] == 0
  {
  }

  lemma ClientClosingC(b: ClientBranch)
    ensures var c := ClientCountC(b);
      && c[SentFin] == 0 && c[RecvFinPssv] == One(b == FinAnswer) && c[RecvAck4Fin] == One(b in {FinAnswer, AckOfFin, FinalAck})
      && c[RecvFin] == One(b in {FinCrossing, FinEarly, FinFirst}) && c[SentFinPssv] == c[SentAck4Fin] == One(b == FinEarly)
  {
    hide ClientCountC;
    ClientSendsNoFin(b);
    ClientAcknowledges(b);
    ClientCloses(b);
    ClientClosesEarly(b);
  }

  lemma ClientSendsNoFin(b: ClientBranch)
    ensures ClientCountC(b)[SentFin] == 0
  {
  }

  lemma ClientAcknowledges(b: ClientBranch)
    ensures var c := ClientCountC(b);
      c[RecvFinPssv] == One(b == FinAnswer) && c[RecvAck4Fin] == One(b in {FinAnswer, AckOfFin, FinalAck})
  {
  }

  lemma ClientCloses(b: ClientBranch)
    ensures ClientCountC(b)[RecvFin] == One(b in {FinCrossing, FinEarly, FinFirst})
  {
  }

  lemma ClientClosesEarly(b: ClientBranch)
    ensures ClientCountC(b)[SentFinPssv] == ClientCountC(b)[SentAck4Fin] == One(b == FinEarly)
  {
  }

  lemma ClientClosingS(b: ClientBranch)
    ensures var s := ClientCountS(b);
      && s[RecvFin] == s[RecvFinPssv] == s[RecvAck4Fin] == 0 && s[SentFinPssv] == One(b == FinAnswer)
      && s[SentAck4Fin] == One(b in {FinAnswer, AckOfFin, FinalAck}) && s[SentFin] == One(b in {FinCrossing, FinFirst})
  {
  }

  lemma ServerPaired(b: ServerBranch)
    ensures Paired(ServerCountC(b), ServerCountS(b))
  {
    ServerSetupC(b);
    ServerSetupS(b);
    ServerClosingC(b);
    ServerClosingS(b);
    hide ServerCountC, ServerCountS;
  }

  lemma ServerSetupC(b: ServerBranch)
    ensures var c := ServerCountC(b); c[RecvSyn] == c[SentSynAck] == c[RecvPayload] == 0
  {
  }

  lemma ServerSetupS(b: ServerBranch)
    ensures var s := ServerCountS(b);
      s[SentSyn] == 0 && s[SentSynAck2] == s[SentPayload] == One(b == SynAckAccepted) && s[SentSynAck2] <= s[RecvSynAck]
  {
  }

  lemma ServerClosingC(b: ServerBranch)
    ensures var c := ServerCountC(b);
      && c[RecvFin] == c[RecvFinPssv] == c[RecvAck4Fin] == 0 && c[SentFinPssv] == One(b == ServerFinAnswer)
      && c[SentAck4Fin] == One(b in {ServerFinAnswer, ServerAckOfFin})
      && c[SentFin] == One(b in {ServerFinCrossing, ServerFinFirst})
  {
  }

  lemma ServerClosingS(b: ServerBranch)
    ensures var s := ServerCountS(b);
      && s[SentFin] == s[SentFinPssv] == s[SentAck4Fin] == 0 && s[RecvFinPssv] == One(b == ServerFinAnswer)
      && s[RecvAck4Fin] == One(b in {ServerFinAnswer, ServerAckOfFin})
      && s[RecvFin] == One(b in {ServerFinCrossing, ServerFinFirst})
  {
  }

  lemma PairedSum(c: Counter, s: Counter, c1: Counter, s1: Counter)
    requires Paired(c, s) && Paired(c1, s1)
    ensures Paired(c + c1, s + s1)
  {
  }
}

/** The queues of the provider server: their bound, and the bound on clients that are
    offered to a provider that has already signed off. */
module ServerQueues {
  import opened ProviderSearch
  import opened ProviderServer
  import opened ServerLocks
  import opened ServerCounting

  /** At most one client is ever offered to a provider that is gone, and a provider that
      has returned leaves at most that client behind. */
  ghost predicate QueueRight(p: Provider) {
    && |p.queue| <= PROVIDER_LIMIT
    && p.late <= 1
    && (p.late > 0 ==> Gone(p.pc))
    && (p.pc.Returned? ==> |p.queue| <= p.late)
  }

  /** A provider that a search has settled on: it had room and was online when it was
      looked at, and nobody has offered it a client since it signed off. */
  ghost predicate Chosen(p: Provider) {
    |p.queue| < PROVIDER_LIMIT && !NotYetOnline(p.pc) && p.late == 0
  }

  ghost predicate ChoiceRight(s: State, pc: RedirPc) {
    match pc
    case Search(i, best) =>
      best.index >= 0 ==> best.index < |s.providers| && Chosen(s.providers[best.index])
    case Offer(j) => j < |s.providers| && Chosen(s.providers[j])
    case _ => true
  }

  ghost predicate QueuesRight(s: State) {
    && (forall j | 0 <= j < |s.providers| :: QueueRight(s.providers[j]))
    && (forall r | 0 <= r < |s.redirectors| :: ChoiceRight(s, s.redirectors[r].pc))
  }

  // ---------------------------------------------------------------- provider steps

  lemma LocalKeepsQueue(p: Provider, working: bool, timeout: bool)
    requires ProviderRight(p, working) && QueueRight(p)
    ensures QueueRight(Local(p, working, timeout))
    ensures Chosen(p) ==> Chosen(Local(p, working, timeout))
  {
    hide PROVIDER_LIMIT;
  }

  lemma ProviderQueues(s: State, i: nat, timeout: bool)
    requires i < |s.providers| == |s.owner|
    requires QueuesRight(s) && ProviderRight(s.providers[i], s.working)
    ensures QueuesRight(StepProvider(s, i, timeout))
  {
    hide Local, ProviderRight, QueueRight, Chosen;
    LocalKeepsQueue(s.providers[i], s.working, timeout);
  }

  // ---------------------------------------------------------------- redirector steps

  /** Only one redirector at a time is between its last lock and its first unlock. */
  lemma OneSearcher(s: State, r: nat, q: nat)
    requires OwnersRight(s) && r < |s.redirectors| && q < |s.redirectors| && r != q && s.owner != []
    requires HoldsAll(s.redirectors[r].pc)
    ensures !HoldsAll(s.redirectors[q].pc)
  {
    assert Holds(s, Redir(r), 0);
    if HoldsAll(s.redirectors[q].pc) { assert Holds(s, Redir(q), 0); }
  }

  /** Between the last lock and the first unlock. */
  predicate HoldsAll(pc: RedirPc) { pc.Search? || pc.Offer? || pc.Refuse? }

  lemma ConsiderChooses(c: seq<Info>, s: State, i: nat, priority: char, best: Best)
    requires Sized(c, s) && i < |s.providers|
    requires ProviderRight(s.providers[i], s.working) && QueueRight(s.providers[i])
    ensures var next := Consider(priority, ViewOf(c, s, i), i, best);
      next == best || (next.index == i && Chosen(s.providers[i]))
  {
    hide Consider, ProviderRight;
    ConsideredIsEligible(priority, ViewOf(c, s, i), i, best);
    assert s.providers[i].online ==> !NotYetOnline(s.providers[i].pc) && !Gone(s.providers[i].pc) by {
      OnlineSays(s.providers[i], s.working);
    }
  }

  lemma OnlineSays(p: Provider, working: bool)
    requires ProviderRight(p, working)
    ensures p.online <==> !NotYetOnline(p.pc) && !Gone(p.pc)
  {}

  /** Offering to a chosen provider keeps its bounds, even if it has signed off since. */
  lemma OfferKeepsQueue(p: Provider, working: bool, client: Client)
    requires ProviderRight(p, working) && QueueRight(p) && Chosen(p)
    ensures QueueRight(Receiving(p, client))
  {
    hide ProviderRight;
    OnlineSays(p, working);
  }

  lemma OfferQueues(c: seq<Info>, s: State, r: nat, priority: char)
    requires Sized(c, s) && r < |s.redirectors| && s.redirectors[r].pc.Offer?
    requires OwnersRight(s) && QueuesRight(s)
    requires forall i | 0 <= i < |s.providers| :: ProviderRight(s.providers[i], s.working)
    ensures QueuesRight(StepRedirector(c, s, r, priority))
  {
    hide ProviderRight, QueueRight, Consider, Start, Chosen, OwnersRight;
    var j := s.redirectors[r].pc.index;
    assert ChoiceRight(s, s.redirectors[r].pc);
    OfferKeepsQueue(s.providers[j], s.working, s.redirectors[r].client);
    var s' := StepRedirector(c, s, r, priority);
    forall q | 0 <= q < |s'.redirectors|
      ensures ChoiceRight(s', s'.redirectors[q].pc)
    {
      if q != r { assert s'.redirectors[q] == s.redirectors[q]; OneSearcher(s, r, q); }
    }
  }

  lemma OtherQueues(c: seq<Info>, s: State, r: nat, priority: char)
    requires Sized(c, s) && r < |s.redirectors| && !s.redirectors[r].pc.Offer?
    requires QueuesRight(s)
    requires forall i | 0 <= i < |s.providers| :: ProviderRight(s.providers[i], s.working)
    ensures QueuesRight(StepRedirector(c, s, r, priority))
  {
    hide ProviderRight, QueueRight, Consider, Chosen;
    var pc := s.redirectors[r].pc;
    assert ChoiceRight(s, pc);
    if pc.Search? && pc.i < |s.providers| {
      ConsiderChooses(c, s, pc.i, s.redirectors[r].priority, pc.best);
    }
    var s' := StepRedirector(c, s, r, priority);
    assert s'.providers == s.providers;
    forall q | 0 <= q < |s'.redirectors|
      ensures ChoiceRight(s', s'.redirectors[q].pc)
    {
      assert ChoiceRight(s, s.redirectors[q].pc);
    }
  }
}

/**
The answers that go out over a whole run, compared with a reading of the run that looks at nothing but the callbacks of
the offer/answer exchanges.
*/
module LifecycleNegotiation {
  import opened Options
  import opened Lifecycle
  import opened LifecycleInvariant
  import opened LifecycleTheorems
  import opened LifecycleFailures

  /** Which connections last made an answer, and whether with a description. */
  type Made = map<nat, bool>

  function MadeAfter(a: Action, made: Made): Made {
    if a.AnswerCreated? then made[a.from := a.hasDesc] else made
  }

  /** The local description of `p` was set, and there was one. */
  predicate Answers(a: Action, made: Made) {
    a.LocalSet? && a.from in made && made[a.from]
  }

  /** An exchange ends without an answer. */
  predicate FailsExchange(a: Action, made: Made) {
    a.StageFails? || (a.LocalSet? && !(a.from in made && made[a.from]))
  }

  /** The connections whose answers go out, in order: one for each local description set that was made. */
  function Answered(acts: seq<Action>, made: Made): seq<nat>
    decreases |acts|
  {
    if acts == [] then []
    else (if Answers(acts[0], made) then [acts[0].from] else []) + Answered(acts[1..], MadeAfter(acts[0], made))
  }

  /** How many exchanges fail: at a callback that says so, or for want of a description. */
  function Failures(acts: seq<Action>, made: Made): nat
    decreases |acts|
  {
    if acts == [] then 0
    else (if FailsExchange(acts[0], made) then 1 else 0) + Failures(acts[1..], MadeAfter(acts[0], made))
  }

  /** A description about to be set is the one its connection made last. */
  predicate MadeGood(pcs: seq<Pc>, made: Made) {
    forall p {:trigger pcs[p]} :: 0 <= p < |pcs| && pcs[p].stage.SettingLocal? ==>
      p in made && pcs[p].stage.desc == if made[p] then Some(p) else None
  }

  /** No connection has another offer, and none is about to set a description that it was not about to set. */
  predicate StagesStay(pcs: seq<Pc>, pcs': seq<Pc>) {
    && |pcs| <= |pcs'|
    && (forall p :: 0 <= p < |pcs| ==> pcs'[p].offer == pcs[p].offer)
    && (forall p :: 0 <= p < |pcs'| && pcs'[p].stage.SettingLocal? ==> p < |pcs| && pcs'[p].stage == pcs[p].stage)
  }

  /** Nor is there another answer or failure. */
  predicate ExchangesStay(c: Client, c': Client) {
    c'.answers == c.answers && c'.failed == c.failed && StagesStay(c.pcs, c'.pcs)
  }

  lemma ChangedStays(pcs: seq<Pc>, p: nat, pc: Pc)
    requires p < |pcs| && pc.offer == pcs[p].offer && (pc.stage.SettingLocal? ==> pc.stage == pcs[p].stage)
    ensures StagesStay(pcs, pcs[p := pc])
  {
  }

  lemma AddedStays(pcs: seq<Pc>, pcs': seq<Pc>, pc: Pc)
    requires StagesStay(pcs, pcs') && !pc.stage.SettingLocal?
    ensures StagesStay(pcs, pcs' + [pc])
  {
  }

  lemma RetiredStays(c: Client, p: nat, status: PcStatus)
    ensures ExchangesStay(c, Retire(c, p, status))
  {
    if p < |c.pcs| {
      ChangedStays(c.pcs, p, Retired(c.pcs[p], status));
    }
  }

  lemma CreatedStays(c: Client, offer: nat, observer: nat)
    ensures ExchangesStay(c, Created(c, offer, observer))
  {
    var free := if c.pc.Some? then Retire(c, c.pc.value, Dropped) else c;
    if c.pc.Some? {
      RetiredStays(c, c.pc.value, Dropped);
    }
    AddedStays(c.pcs, free.pcs, Pc(offer, observer, Live, SettingRemote, 0));
  }

  lemma OfferedAgainStays(c: Client)
    ensures ExchangesStay(c, NotCreated(c))
  {
    if c.pc.Some? && c.pc.value < |c.pcs| {
      ChangedStays(c.pcs, c.pc.value, c.pcs[c.pc.value].(stage := SettingRemote));
    }
  }

  lemma ConnectionFrameStays(f: Frame, key: string, c: Client)
    requires ConnectionFrame(f)
    ensures ExchangesStay(c, RunFrame(f, key, c).client)
  {
    if f.OfferMake? {
      CreatedStays(c, f.offer, if c.observer.Some? then c.observer.value else 0);
      assert RunFrame(f, key, c) == RunOffer(f, c);
    } else if f.OfferFailed? {
      OfferedAgainStays(c);
      assert RunFrame(f, key, c) == Ran(NotCreated(c), None);
    } else if c.pc.Some? {
      RetiredStays(c, c.pc.value, if f.ClosePc? then Closed else Dropped);
    }
  }

  lemma StatementStays(f: Frame, key: string, c: Client)
    ensures ExchangesStay(c, RunFrame(f, key, c).client)
  {
    if ConnectionFrame(f) {
      ConnectionFrameStays(f, key, c);
    } else {
      OtherFrameSame(f, key, c);
    }
  }

  lemma CallStays(w: World)
    ensures ExchangesStay(w.client, CallClose(w).client)
  {
  }

  /** Steps that are no callbacks of an exchange. */
  lemma OtherStays(w: World, a: Action)
    requires !a.RemoteSet? && !a.AnswerCreated? && !a.LocalSet? && !a.StageFails?
    ensures ExchangesStay(w.client, Step(w, a).client)
  {
    if a.Continue? {
      if !Quiet(w) {
        StatementStays(w.stack.top, a.key, w.client);
      }
    } else if a.Offer? {
      CallStays(Push(w, OfferCheck(a.offer, a.creates)));
    } else if a.CloseMessage? || a.ConnectionChange? {
      CallStays(w);
    }
  }

  /** The answers to these connections' offers. */
  function AnswersTo(pcs: seq<Pc>, ps: seq<nat>): seq<Answer>
    requires forall i :: 0 <= i < |ps| ==> ps[i] < |pcs|
  {
    seq(|ps|, i requires 0 <= i < |ps| => Answer(pcs[ps[i]].offer, ps[i], ps[i]))
  }

  /** What a step does to the book of answers and failures. */
  predicate Booked(c: Client, answered: seq<nat>, failures: nat, c': Client) {
    && |c.pcs| <= |c'.pcs| && (forall p :: 0 <= p < |c.pcs| ==> c'.pcs[p].offer == c.pcs[p].offer)
    && (forall i :: 0 <= i < |answered| ==> answered[i] < |c'.pcs|)
    && c'.answers == c.answers + AnswersTo(c'.pcs, answered) && c'.failed == c.failed + failures
  }

  lemma BookedThen(a: Client, one: seq<nat>, m: nat, b: Client, more: seq<nat>, n: nat, c: Client)
    requires Booked(a, one, m, b) && Booked(b, more, n, c)
    ensures Booked(a, one + more, m + n, c)
  {
    assert AnswersTo(c.pcs, one + more) == AnswersTo(b.pcs, one) + AnswersTo(c.pcs, more);
  }

  lemma ExchangeBooked(w: World, a: Action, made: Made)
    requires Always(w) && MadeGood(w.client.pcs, made) && Enabled(w, a)
    requires a.RemoteSet? || a.AnswerCreated? || a.LocalSet? || a.StageFails?
    ensures MadeGood(Step(w, a).client.pcs, MadeAfter(a, made))
    ensures Booked(w.client, if Answers(a, made) then [a.from] else [], if FailsExchange(a, made) then 1 else 0,
                   Step(w, a).client)
  {
    assert IsLive(w.client, a.from) && w.client.pc == Some(a.from);
  }

  lemma StepBooked(w: World, a: Action, made: Made)
    requires Always(w) && MadeGood(w.client.pcs, made) && Enabled(w, a)
    ensures MadeGood(Step(w, a).client.pcs, MadeAfter(a, made))
    ensures Booked(w.client, if Answers(a, made) then [a.from] else [], if FailsExchange(a, made) then 1 else 0,
                   Step(w, a).client)
  {
    if a.RemoteSet? || a.AnswerCreated? || a.LocalSet? || a.StageFails? {
      ExchangeBooked(w, a, made);
    } else {
      OtherStays(w, a);
    }
  }

  /**
  Over every run whatsoever, the answers sent are those of the connections whose local description was set after they
  had made one, each for the offer of its own connection, once each time and in order; every other end of an exchange
  is counted as a failure.
  */
  lemma {:induction false} AnswersAreRead(w: World, acts: seq<Action>, made: Made)
    requires Always(w) && MadeGood(w.client.pcs, made) && Legal(w, acts)
    ensures Booked(w.client, Answered(acts, made), Failures(acts, made), Exec(w, acts).client)
    decreases |acts|
  {
    if acts != [] {
      var a := acts[0];
      var next, made' := Step(w, a), MadeAfter(a, made);
      StepKeepsAlways(w, a);
      StepBooked(w, a, made);
      AnswersAreRead(next, acts[1..], made');
      BookedThen(w.client, if Answers(a, made) then [a.from] else [], if FailsExchange(a, made) then 1 else 0,
                 next.client, Answered(acts[1..], made'), Failures(acts[1..], made'), Exec(w, acts).client);
    }
  }

  /** From the start: `answers` and `failed` are this reading of the actions. */
  lemma AnswersOfRun(acts: seq<Action>)
    requires Legal(Initial(), acts)
    ensures var c := Exec(Initial(), acts).client;
      && (forall i :: 0 <= i < |Answered(acts, map[])| ==> Answered(acts, map[])[i] < |c.pcs|)
      && c.answers == AnswersTo(c.pcs, Answered(acts, map[])) && c.failed == Failures(acts, map[])
  {
    InitialIsGood();
    AnswersAreRead(Initial(), acts, map[]);
  }
}

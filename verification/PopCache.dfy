/** Replay protection of the access grant server: proof-of-possession tokens, and the cache of their identifiers. */
module PopCache {
  import opened Text

  /** Nanoseconds. */
  const SECOND := 1_000_000_000

  const GAP := 3
  const LIFETIME := 5 * 60

  /** Clock tolerance and lifetime of tokens in seconds, and the longest time in nanoseconds that the server takes from
      putting an identifier into its cache to reading the clock for the time check. */
  datatype Config = Config(gap: nat, lifetime: nat, delay: nat)

  /** A token: its identifier, its iat claim as a number (None where Atoi fails), and whether its signature, and its
      audience and key, are in order. */
  datatype Token = Token(jti: string, iat: Option<int>, signed: bool, fits: bool)

  function Unix(now: nat): nat {
    now / SECOND
  }

  function Retention(c: Config): nat {
    (c.gap + c.lifetime + 5) * SECOND
  }

  /** CheckIat at time `now`. */
  predicate InTime(c: Config, iat: Option<int>, now: nat) {
    iat.Some? && Unix(now) < iat.value + c.gap + c.lifetime && Unix(now) > iat.value - c.gap
  }

  /** A started deleteJti: it sleeps until `wake` at least. */
  datatype Deletion = Deletion(jti: string, wake: nat)

  /** A request whose identifier went into the cache at time `since`. */
  datatype Handled = Handled(token: Token, since: nat)

  datatype Acceptance = Acceptance(jti: string, iat: int, since: nat, checked: nat)

  /** The server: time, cache, sleeping deletions, the request in hand, and the tokens accepted so far. */
  datatype State = State(now: nat, cache: set<string>, deletions: seq<Deletion>, busy: Option<Handled>,
                         accepted: seq<Acceptance>)

  const INIT := State(0, {}, [], None, [])

  // ---------------------------------------------------------------- steps

  datatype Step = Tick(to: nat) | Receive(token: Token) | Answer | Delete(i: nat)

  /** addCheckJti, and the start of the deletion. */
  function Cached(c: Config, s: State, jti: string): State {
    s.(cache := s.cache + {jti}, deletions := s.deletions + [Deletion(jti, s.now + Retention(c))])
  }

  function Received(c: Config, s: State, t: Token): State {
    if t.jti in s.cache then s else Cached(c, s, t.jti).(busy := Some(Handled(t, s.now)))
  }

  function Answered(c: Config, s: State): State
    requires s.busy.Some?
  {
    var t := s.busy.value.token;
    if t.signed && t.fits && InTime(c, t.iat, s.now)
    then s.(busy := None, accepted := s.accepted + [Acceptance(t.jti, t.iat.value, s.busy.value.since, s.now)])
    else s.(busy := None)
  }

  function Deleted(s: State, i: nat): State
    requires i < |s.deletions|
  {
    s.(cache := s.cache - {s.deletions[i].jti}, deletions := s.deletions[..i] + s.deletions[i + 1..])
  }

  /** The steps that can be taken: one request at a time, deletions any time after they wake. */
  predicate Enabled(c: Config, s: State, step: Step) {
    match step
    case Tick(to) => s.now <= to
    case Receive(_) => s.busy == None
    case Answer => s.busy.Some? && s.now <= s.busy.value.since + c.delay
    case Delete(i) => i < |s.deletions| && s.deletions[i].wake <= s.now
  }

  function Next(c: Config, s: State, step: Step): State
    requires Enabled(c, s, step)
  {
    match step
    case Tick(to) => s.(now := to)
    case Receive(t) => Received(c, s, t)
    case Answer => Answered(c, s)
    case Delete(i) => Deleted(s, i)
  }

  /** The state that a run of steps leads to; None if some step is not enabled. */
  function Run(c: Config, s: State, steps: seq<Step>): Option<State>
    decreases |steps|
  {
    if steps == [] then Some(s)
    else if Enabled(c, s, steps[0]) then Run(c, Next(c, s, steps[0]), steps[1..])
    else None
  }

  // ---------------------------------------------------------------- the code

  datatype Reply = RepeatedJti | InvalidSignature | InvalidToken | Granted

  /** The package state of the server, and the sleeping deletions. */
  class AgtServer {
    const config: Config
    var jtiCache: Option<set<string>>
    var sleeping: seq<Deletion>

    constructor (config: Config)
      ensures this.config == config && Cache() == {} && sleeping == []
    {
      this.config, jtiCache, sleeping := config, None, [];
    }

    /** A nil map holds nothing. */
    function Cache(): set<string>
      reads this
    {
      if jtiCache == None then {} else jtiCache.value
    }

    /** The cache and the deletions are those of a state of the protocol. */
    predicate Shows(s: State)
      reads this
    {
      Cache() == s.cache && sleeping == s.deletions
    }

    method StartDeleteJti(jti: string, now: nat)
      modifies this`sleeping
      ensures sleeping == old(sleeping) + [Deletion(jti, now + Retention(config))]
    {
      sleeping := sleeping + [Deletion(jti, now + (config.gap + config.lifetime + 5) * SECOND)];
    }

    method AddCheckJti(jti: string, now: nat) returns (ok: bool)
      modifies this
      ensures ok == (jti !in old(Cache()))
      ensures Cache() == old(Cache()) + {jti}
      ensures sleeping == if ok then old(sleeping) + [Deletion(jti, now + Retention(config))] else old(sleeping)
    {
      if jtiCache == None {
        jtiCache := Some({});
        jtiCache := Some(jtiCache.value + {jti});
        StartDeleteJti(jti, now);
        return true;
      }
      if jti in jtiCache.value {
        return false;
      }
      jtiCache := Some(jtiCache.value + {jti});
      StartDeleteJti(jti, now);
      return true;
    }

    /** The end of deleteJti, once a deletion has woken. */
    method DeleteJti(i: nat, ghost s: State)
      requires Shows(s) && i < |sleeping|
      modifies this
      ensures Shows(Deleted(s, i))
    {
      jtiCache := Some(Cache() - {sleeping[i].jti});
      sleeping := sleeping[..i] + sleeping[i + 1..];
    }

    /** The checks of generateLTAgt, the clock showing `now` at the first and `later` at the time check. */
    method GenerateLTAgt(popToken: Token, now: nat, later: nat, ghost s: State) returns (reply: Reply)
      requires Shows(s) && s.now == now && s.busy == None
      modifies this
      ensures Shows(Received(config, s, popToken))
      ensures reply == if popToken.jti in s.cache then RepeatedJti
                       else if !popToken.signed then InvalidSignature
                       else if popToken.fits && InTime(config, popToken.iat, later) then Granted
                       else InvalidToken
      ensures reply == Granted <==>
              var r := Received(config, s, popToken).(now := later);
              r.busy.Some? && |Answered(config, r).accepted| > |s.accepted|
      ensures reply == Granted <==>
              && popToken.jti !in s.cache && popToken.signed && popToken.fits && popToken.iat.Some?
              && popToken.iat.value - config.gap < later / 1_000_000_000
              && later / 1_000_000_000 < popToken.iat.value + config.gap + config.lifetime
    {
      var ok := AddCheckJti(popToken.jti, now);
      if !ok {
        return RepeatedJti;
      }
      if !popToken.signed {
        return InvalidSignature;
      }
      var inTime := CheckIat(popToken.iat, later);
      if !inTime || !popToken.fits {
        return InvalidToken;
      }
      return Granted;
    }

    method CheckIat(iat: Option<int>, now: nat) returns (ok: bool)
      ensures ok == InTime(config, iat, now)
    {
      var act := Unix(now);
      if iat == None {
        return false;
      }
      if !(act < iat.value + config.gap + config.lifetime) {
        return false;
      }
      if !(act > iat.value - config.gap) {
        return false;
      }
      return true;
    }
  }

  // ---------------------------------------------------------------- invariant of all runs

  /** The deletion of an identifier cached at time `since` is still to come, or its time has passed. */
  ghost predicate Covered(c: Config, s: State, jti: string, since: nat) {
    Deletion(jti, since + Retention(c)) in s.deletions || since + Retention(c) <= s.now
  }

  /** Every cached identifier has exactly one deletion to come, and there are no others. */
  ghost predicate OneDeletionEach(s: State) {
    && (forall i :: 0 <= i < |s.deletions| ==> s.deletions[i].jti in s.cache)
    && (forall jti :: jti in s.cache ==> exists i :: 0 <= i < |s.deletions| && s.deletions[i].jti == jti)
    && (forall i, j :: 0 <= i < j < |s.deletions| ==> s.deletions[i].jti != s.deletions[j].jti)
  }

  predicate Sound(c: Config, s: State, a: Acceptance) {
    a.since <= a.checked <= s.now && a.checked <= a.since + c.delay && InTime(c, Some(a.iat), a.checked)
  }

  ghost predicate AllSound(c: Config, s: State) {
    forall i :: 0 <= i < |s.accepted| ==>
      Sound(c, s, s.accepted[i]) && Covered(c, s, s.accepted[i].jti, s.accepted[i].since)
  }

  /** Two acceptances of one identifier are a retention time apart. */
  predicate Apart(c: Config, accepted: seq<Acceptance>) {
    forall i, j :: 0 <= i < j < |accepted| && accepted[i].jti == accepted[j].jti ==>
      accepted[i].since + Retention(c) <= accepted[j].since
  }

  ghost predicate InHand(c: Config, s: State) {
    s.busy.Some? ==>
      var h := s.busy.value;
      && h.since <= s.now
      && Covered(c, s, h.token.jti, h.since)
      && forall i :: 0 <= i < |s.accepted| && s.accepted[i].jti == h.token.jti ==>
           s.accepted[i].since + Retention(c) <= h.since
  }

  ghost predicate Inv(c: Config, s: State) {
    OneDeletionEach(s) && AllSound(c, s) && Apart(c, s.accepted) && InHand(c, s)
  }

  lemma TickKeeps(c: Config, s: State, to: nat)
    requires Inv(c, s) && s.now <= to
    ensures Inv(c, s.(now := to))
  {
    hide Retention, InTime;
  }

  lemma ReceiveKeeps(c: Config, s: State, t: Token)
    requires Inv(c, s) && s.busy == None
    ensures Inv(c, Received(c, s, t))
  {
    hide Retention, InTime, Apart;
    var r := Received(c, s, t);
    if t.jti !in s.cache {
      var n := |s.deletions|;
      assert forall i :: 0 <= i < n ==> r.deletions[i] == s.deletions[i];
      assert forall d :: d in s.deletions ==> d in r.deletions;
      assert r.deletions[n] == Deletion(t.jti, s.now + Retention(c));
      assert forall jti :: jti in s.cache ==> exists i :: 0 <= i < |r.deletions| && r.deletions[i].jti == jti;
    }
  }

  lemma AnswerKeeps(c: Config, s: State)
    requires Inv(c, s) && Enabled(c, s, Answer)
    ensures Inv(c, Answered(c, s))
  {
    hide Retention, Unix;
  }

  /** All other deletions are still to come. */
  lemma OthersStay(s: State, i: nat, k: nat)
    requires i < |s.deletions| && k < |s.deletions| && k != i
    ensures var l := if k < i then k else k - 1;
            l < |Deleted(s, i).deletions| && Deleted(s, i).deletions[l] == s.deletions[k]
  {
  }

  lemma DeletedOneEach(s: State, i: nat)
    requires OneDeletionEach(s) && i < |s.deletions|
    ensures OneDeletionEach(Deleted(s, i))
  {
    var r := Deleted(s, i);
    forall jti | jti in r.cache ensures exists k :: 0 <= k < |r.deletions| && r.deletions[k].jti == jti {
      var k :| 0 <= k < |s.deletions| && s.deletions[k].jti == jti;
      OthersStay(s, i, k);
    }
  }

  lemma DeletedCovered(c: Config, s: State, i: nat, jti: string, since: nat)
    requires Enabled(c, s, Delete(i)) && Covered(c, s, jti, since)
    ensures Covered(c, Deleted(s, i), jti, since)
  {
    hide Retention;
    var d := Deletion(jti, since + Retention(c));
    if d in s.deletions && d != s.deletions[i] {
      var k :| 0 <= k < |s.deletions| && s.deletions[k] == d;
      OthersStay(s, i, k);
    }
  }

  lemma DeleteKeeps(c: Config, s: State, i: nat)
    requires Inv(c, s) && Enabled(c, s, Delete(i))
    ensures Inv(c, Deleted(s, i))
  {
    DeletedOneEach(s, i);
    hide Retention, InTime, Apart, OneDeletionEach, Covered;
    var r := Deleted(s, i);
    assert r == s.(cache := r.cache, deletions := r.deletions);
    forall k | 0 <= k < |s.accepted| ensures Covered(c, r, s.accepted[k].jti, s.accepted[k].since) {
      DeletedCovered(c, s, i, s.accepted[k].jti, s.accepted[k].since);
    }
    if s.busy.Some? {
      DeletedCovered(c, s, i, s.busy.value.token.jti, s.busy.value.since);
    }
  }

  lemma StepKeeps(c: Config, s: State, step: Step)
    requires Inv(c, s) && Enabled(c, s, step)
    ensures Inv(c, Next(c, s, step))
  {
    hide Inv, Received, Answered, Deleted;
    match step
    case Tick(to) => TickKeeps(c, s, to);
    case Receive(t) => ReceiveKeeps(c, s, t);
    case Answer => AnswerKeeps(c, s);
    case Delete(i) => DeleteKeeps(c, s, i);
  }

  lemma {:induction false} RunKeeps(c: Config, s: State, steps: seq<Step>)
    requires Inv(c, s) && Run(c, s, steps).Some?
    ensures Inv(c, Run(c, s, steps).value)
    decreases |steps|
  {
    hide Inv, Next, Enabled;
    if steps != [] {
      StepKeeps(c, s, steps[0]);
      RunKeeps(c, Next(c, s, steps[0]), steps[1..]);
    }
  }

  /** On every run each cached identifier has exactly one deletion to come, and acceptances of one identifier lie a
      retention time apart. */
  lemma EveryRun(c: Config, steps: seq<Step>)
    requires Run(c, INIT, steps).Some?
    ensures OneDeletionEach(Run(c, INIT, steps).value) && Apart(c, Run(c, INIT, steps).value.accepted)
  {
    RunKeeps(c, INIT, steps);
  }

  // ---------------------------------------------------------------- at most once

  /** No token, identified by its jti and iat claims, is accepted twice. */
  predicate AtMostOnce(accepted: seq<Acceptance>) {
    forall i, j :: 0 <= i < j < |accepted| ==> accepted[i].jti != accepted[j].jti || accepted[i].iat != accepted[j].iat
  }

  /** The cache outlasts the time in which a token is accepted, as far as the delay allows. */
  lemma WindowPasses(c: Config, a: Acceptance, b: Acceptance)
    requires c.delay <= (6 - c.gap) * SECOND
    requires a.since <= a.checked <= a.since + c.delay && InTime(c, Some(a.iat), a.checked)
    requires b.since <= b.checked && InTime(c, Some(b.iat), b.checked)
    requires a.since + Retention(c) <= b.since
    ensures a.iat != b.iat
  {
    assert Unix(a.checked) <= Unix(a.since) + 6 - c.gap;
    assert Unix(b.checked) >= Unix(a.since) + c.gap + c.lifetime + 5;
  }

  lemma AcceptedOnce(c: Config, steps: seq<Step>)
    requires c.delay <= (6 - c.gap) * SECOND && Run(c, INIT, steps).Some?
    ensures AtMostOnce(Run(c, INIT, steps).value.accepted)
  {
    RunKeeps(c, INIT, steps);
    var s := Run(c, INIT, steps).value;
    hide Run, InTime, Retention;
    forall i, j | 0 <= i < j < |s.accepted| && s.accepted[i].jti == s.accepted[j].jti
      ensures s.accepted[i].iat != s.accepted[j].iat
    {
      WindowPasses(c, s.accepted[i], s.accepted[j]);
    }
  }

  lemma StepThen(c: Config, s: State, step: Step, rest: seq<Step>)
    requires Enabled(c, s, step)
    ensures Run(c, s, [step] + rest) == Run(c, Next(c, s, step), rest)
  {
    hide Enabled, Next;
    assert ([step] + rest)[1..] == rest;
  }

  /** Where the server may take longer, some token is accepted, deleted and accepted again. */
  lemma AcceptedTwice(c: Config) returns (steps: seq<Step>)
    requires c.delay > (6 - c.gap) * SECOND && 2 * c.gap + c.lifetime >= 2
    ensures Run(c, INIT, steps).Some? && !AtMostOnce(Run(c, INIT, steps).value.accepted)
  {
    var k := if c.gap >= 7 then 0 else 7 - c.gap;
    var t1 := SECOND - 1;
    var c1 := k * SECOND + if k == 0 then t1 else 0;
    var t2 := t1 + Retention(c);
    var token := Token("a", Some(k + c.gap - 1), true, true);
    assert Unix(c1) == k && Unix(t2) == c.gap + c.lifetime + 5;
    assert t1 <= c1 <= t1 + c.delay && c1 <= t2;
    assert InTime(c, token.iat, c1) && InTime(c, token.iat, t2);
    hide InTime, Retention, Unix, Run;
    var d := Deletion("a", t2);
    var s1 := State(t1, {}, [], None, []);
    var s2 := State(t1, {"a"}, [d], Some(Handled(token, t1)), []);
    var s3 := State(c1, {"a"}, [d], Some(Handled(token, t1)), []);
    var a := Acceptance("a", token.iat.value, t1, c1);
    var s4 := State(c1, {"a"}, [d], None, [a]);
    var s5 := State(t2, {"a"}, [d], None, [a]);
    var s6 := State(t2, {}, [], None, [a]);
    var s7 := Received(c, s6, token);
    var s8 := s7.(busy := None, accepted := [a, Acceptance("a", token.iat.value, t2, t2)]);
    assert Next(c, INIT, Tick(t1)) == s1 && Next(c, s1, Receive(token)) == s2 && Next(c, s2, Tick(c1)) == s3;
    assert Next(c, s3, Answer) == s4 && Next(c, s4, Tick(t2)) == s5 && Next(c, s5, Delete(0)) == s6;
    assert Next(c, s6, Receive(token)) == s7 && Next(c, s7, Answer) == s8;
    StepThen(c, s7, Answer, []);
    StepThen(c, s6, Receive(token), [Answer] + []);
    StepThen(c, s5, Delete(0), [Receive(token)] + ([Answer] + []));
    StepThen(c, s4, Tick(t2), [Delete(0)] + ([Receive(token)] + ([Answer] + [])));
    var last := [Tick(t2)] + ([Delete(0)] + ([Receive(token)] + ([Answer] + [])));
    StepThen(c, s3, Answer, last);
    StepThen(c, s2, Tick(c1), [Answer] + last);
    StepThen(c, s1, Receive(token), [Tick(c1)] + ([Answer] + last));
    StepThen(c, INIT, Tick(t1), [Receive(token)] + ([Tick(c1)] + ([Answer] + last)));
    steps := [Tick(t1)] + ([Receive(token)] + ([Tick(c1)] + ([Answer] + last)));
    RunNothing(c, s8);
    assert s8.accepted[0].jti == s8.accepted[1].jti && s8.accepted[0].iat == s8.accepted[1].iat;
  }

  lemma RunNothing(c: Config, s: State)
    ensures Run(c, s, []) == Some(s)
  {
  }

  /** On every run, whatever the requests, the clock and the order of late deletions, no token is accepted twice: this
      holds exactly when the server never takes longer than 6 seconds less the clock tolerance from the cache to the
      time check. */
  lemma AtMostOnceIff(c: Config)
    requires 2 * c.gap + c.lifetime >= 2
    ensures (forall steps :: Run(c, INIT, steps).Some? ==> AtMostOnce(Run(c, INIT, steps).value.accepted))
            <==> c.delay <= (6 - c.gap) * SECOND
  {
    if c.delay <= (6 - c.gap) * SECOND {
      forall steps | Run(c, INIT, steps).Some? ensures AtMostOnce(Run(c, INIT, steps).value.accepted) {
        AcceptedOnce(c, steps);
      }
    } else {
      var steps := AcceptedTwice(c);
    }
  }

  /** With the server's constants: exactly when it takes three seconds at most. */
  lemma ThreeSeconds(delay: nat)
    ensures (forall steps :: Run(Config(GAP, LIFETIME, delay), INIT, steps).Some?
               ==> AtMostOnce(Run(Config(GAP, LIFETIME, delay), INIT, steps).value.accepted))
            <==> delay <= 3_000_000_000
  {
    AtMostOnceIff(Config(GAP, LIFETIME, delay));
  }

  // ---------------------------------------------------------------- which tokens are accepted

  lemma {:induction false} RunOn(c: Config, s: State, steps: seq<Step>, more: seq<Step>)
    requires Run(c, s, steps).Some?
    ensures Run(c, s, steps + more) == Run(c, Run(c, s, steps).value, more)
    decreases |steps|
  {
    hide Enabled, Next;
    if steps == [] {
      assert steps + more == more;
    } else {
      assert (steps + more)[0] == steps[0] && (steps + more)[1..] == steps[1..] + more;
      RunOn(c, Next(c, s, steps[0]), steps[1..], more);
    }
  }

  /** The three steps of a request that arrives between others and is answered at time `to`. */
  function Request(token: Token, to: nat): seq<Step> {
    [Receive(token)] + ([Tick(to)] + ([Answer] + []))
  }

  /** After any run: a token with a known identifier changes nothing. Any other is accepted exactly when it is signed
      and fits, and the second in which it is answered lies strictly between its iat claim less the tolerance and the
      claim plus tolerance and lifetime; and its identifier is cached until tolerance, lifetime and five seconds have
      passed. */
  lemma AcceptedIff(c: Config, steps: seq<Step>, token: Token, to: nat)
    requires Run(c, INIT, steps).Some? && Run(c, INIT, steps).value.busy == None
    ensures var s := Run(c, INIT, steps).value;
            && (token.jti in s.cache ==> Run(c, INIT, steps + [Receive(token)]) == Some(s))
            && (token.jti !in s.cache && s.now <= to <= s.now + c.delay ==>
                  var r := Run(c, INIT, steps + Request(token, to));
                  && r.Some? && r.value.busy == None && r.value.cache == s.cache + {token.jti}
                  && r.value.deletions
                     == s.deletions + [Deletion(token.jti, s.now + (c.gap + c.lifetime + 5) * 1_000_000_000)]
                  && r.value.accepted
                     == s.accepted
                        + if token.signed && token.fits && token.iat.Some?
                             && token.iat.value - c.gap < to / 1_000_000_000
                             && to / 1_000_000_000 < token.iat.value + c.gap + c.lifetime
                          then [Acceptance(token.jti, token.iat.value, s.now, to)] else [])
  {
    var s := Run(c, INIT, steps).value;
    RunOn(c, INIT, steps, [Receive(token)]);
    RunOn(c, INIT, steps, Request(token, to));
    assert [Receive(token)] + [] == [Receive(token)];
    StepThen(c, s, Receive(token), []);
    RunNothing(c, Next(c, s, Receive(token)));
    if token.jti !in s.cache && s.now <= to <= s.now + c.delay {
      var r := Received(c, s, token);
      var t := r.(now := to);
      StepThen(c, s, Receive(token), [Tick(to)] + ([Answer] + []));
      StepThen(c, r, Tick(to), [Answer] + []);
      StepThen(c, t, Answer, []);
      RunNothing(c, Answered(c, t));
      hide Run;
      assert s.accepted + [] == s.accepted;
    }
  }

  /** A token is accepted in its own second if there is any tolerance. With the server's constants it is accepted from
      two seconds before that one to 302 seconds behind it. */
  lemma OwnSecond(c: Config, steps: seq<Step>, token: Token, to: nat)
    requires Run(c, INIT, steps).Some? && Run(c, INIT, steps).value.busy == None
    requires token.jti !in Run(c, INIT, steps).value.cache && token.signed && token.fits && token.iat.Some?
    requires Run(c, INIT, steps).value.now <= to <= Run(c, INIT, steps).value.now + c.delay
    ensures var before, after := Run(c, INIT, steps).value.accepted, Run(c, INIT, steps + Request(token, to));
            var age := to / 1_000_000_000 - token.iat.value;
            && after.Some?
            && (c.gap > 0 && age == 0 ==> |after.value.accepted| == |before| + 1)
            && (c.gap == GAP && c.lifetime == LIFETIME ==>
                  |after.value.accepted| == |before| + if -2 <= age <= 302 then 1 else 0)
  {
    AcceptedIff(c, steps, token, to);
  }
}

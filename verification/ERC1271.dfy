/**
  `ERC1271ContractFacade.ts`: signatures that a contract judges, with its verdicts kept for a while.
  Several questions may be under way at once.
 */
module ERC1271 {
  import opened Wrappers
  import opened TtlMaps

  /** The value by which a contract approves a signature. */
  const SUCCESS_MAGIC_VALUE := "0x1626ba7e"

  predicate Approves(result: string) { result == SUCCESS_MAGIC_VALUE }

  const CACHE_TTL: nat := 10 * 60 * 1000
  const DENIAL_TTL: nat := 20 * 1000

  function Ttl(isValid: bool): nat { if isValid then CACHE_TTL else DENIAL_TTL }

  type Key = string

  type CallId = nat

  const ADDRESS_LENGTH := 42

  function CacheKey(contract: string, signer: string): Key { contract + "_" + signer }

  /** Addresses have one length, so different questions have different keys. */
  lemma KeyDetermines(contract: string, signer: string, contract': string, signer': string)
    requires |contract| == |contract'| == ADDRESS_LENGTH && CacheKey(contract, signer) == CacheKey(contract', signer')
    ensures contract == contract' && signer == signer'
  {
    var key := CacheKey(contract, signer);
    assert key == CacheKey(contract', signer');
    assert contract == key[..ADDRESS_LENGTH] && contract' == key[..ADDRESS_LENGTH];
    assert signer == key[ADDRESS_LENGTH + 1..] && signer' == key[ADDRESS_LENGTH + 1..];
  }

  /** A call that waits for the chain. */
  datatype Question = Question(contract: string, signer: string, payload: seq<bv8>)

  /** What the chain answered to a question, and what a call returned, with the time. */
  datatype Verdict = Verdict(question: Question, isValid: bool, at: nat)

  datatype Ending = Returned(isValid: bool) | ChainUnavailable

  datatype State = State(
    cache: TtlMap<Key, bool>,
    waiting: map<CallId, Question>,
    answers: seq<Verdict>,
    verdicts: seq<Verdict>
  )

  // ------------------------------------------------------------------ steps

  function KeyOf(q: Question): Key { CacheKey(q.contract, q.signer) }

  /** The signer is recovered from the signature; a kept verdict is returned at once, else the chain is asked. */
  function AfterAsk(s: State, c: CallId, q: Question): State {
    match Get(s.cache, KeyOf(q))
    case Some(isValid) => s.(verdicts := s.verdicts + [Verdict(q, isValid, s.cache.now)])
    case None => s.(waiting := s.waiting[c := q])
  }

  function AfterAnswer(s: State, c: CallId, result: string): State
    requires c in s.waiting
  {
    var q, isValid := s.waiting[c], Approves(result);
    var answer := Verdict(q, isValid, s.cache.now);
    State(Set(s.cache, Ttl, KeyOf(q), isValid), s.waiting - {c}, s.answers + [answer], s.verdicts + [answer])
  }

  function AfterChainFailure(s: State, c: CallId): State {
    s.(waiting := s.waiting - {c})
  }

  datatype Step =
    | Ask(c: CallId, q: Question)
    | Answer(c: CallId, result: string)
    | ChainFails(c: CallId)
    | Timer(t: TimerId)
    | Elapse(time: nat)

  ghost predicate CanStep(s: State, e: Step) {
    match e
    case Ask(c, q) => c !in s.waiting && |q.contract| == ADDRESS_LENGTH
    case Answer(c, _) => c in s.waiting
    case ChainFails(c) => c in s.waiting
    case Timer(t) => Enabled(s.cache, TimerFires(t))
    case Elapse(time) => Enabled(s.cache, Pass(time))
  }

  function Next(s: State, e: Step): State
    requires e.Answer? ==> e.c in s.waiting
    requires e.Timer? ==> e.t in s.cache.timers
  {
    match e
    case Ask(c, q) => AfterAsk(s, c, q)
    case Answer(c, result) => AfterAnswer(s, c, result)
    case ChainFails(c) => AfterChainFailure(s, c)
    case Timer(t) => s.(cache := Fire(s.cache, t))
    case Elapse(time) => s.(cache := TtlMaps.Apply(s.cache, Ttl, Pass(time)))
  }

  // ------------------------------------------------------------------ the invariant

  /** What is kept at `key` is an answer of the chain, given when its timer was started. */
  ghost predicate KeptIsAnswer(s: State, key: Key)
    requires key in s.cache.delegate && s.cache.delegate[key].timer in s.cache.timers
  {
    exists a <- s.answers ::
      && |a.question.contract| == ADDRESS_LENGTH && KeyOf(a.question) == key
      && a.isValid == s.cache.delegate[key].value
      && s.cache.timers[s.cache.delegate[key].timer].due == a.at + Ttl(a.isValid)
      && a.at <= s.cache.now
  }

  /** A returned verdict is an answer of the chain about the same contract and signer, at most its time to live ago. */
  ghost predicate VerdictIsFresh(answers: seq<Verdict>, v: Verdict) {
    exists a <- answers ::
      a.question.contract == v.question.contract && a.question.signer == v.question.signer && a.isValid == v.isValid
      && a.at <= v.at <= a.at + Ttl(v.isValid)
  }

  ghost predicate Valid(s: State) {
    && TtlMaps.Inv(s.cache)
    && (forall key <- s.cache.delegate :: KeptIsAnswer(s, key))
    && (forall v <- s.verdicts :: VerdictIsFresh(s.answers, v))
    && (forall c <- s.waiting :: |s.waiting[c].contract| == ADDRESS_LENGTH)
  }

  lemma AskKeeps(s: State, c: CallId, q: Question)
    requires Valid(s) && CanStep(s, Ask(c, q))
    ensures Valid(AfterAsk(s, c, q))
  {
    var t := AfterAsk(s, c, q);
    var key := KeyOf(q);
    forall k <- t.cache.delegate ensures KeptIsAnswer(t, k) {
      assert KeptIsAnswer(s, k);
    }
    if key in s.cache.delegate {
      var v := Verdict(q, s.cache.delegate[key].value, s.cache.now);
      assert KeptIsAnswer(s, key);
      var a :| a in s.answers && |a.question.contract| == ADDRESS_LENGTH && KeyOf(a.question) == key
        && a.isValid == s.cache.delegate[key].value
        && s.cache.timers[s.cache.delegate[key].timer].due == a.at + Ttl(a.isValid) && a.at <= s.cache.now;
      KeyDetermines(a.question.contract, a.question.signer, q.contract, q.signer);
      assert VerdictIsFresh(t.answers, v);
    }
  }

  lemma AnswerKeeps(s: State, c: CallId, result: string)
    requires Valid(s) && CanStep(s, Answer(c, result))
    ensures Valid(AfterAnswer(s, c, result))
  {
    var t := AfterAnswer(s, c, result);
    var q := s.waiting[c];
    var answer := t.answers[|s.answers|];
    TtlMaps.StepKeeps(s.cache, Ttl, SetEntry(KeyOf(q), answer.isValid));
    assert answer in t.answers;
    forall k <- t.cache.delegate ensures KeptIsAnswer(t, k) {
      if k != KeyOf(q) {
        assert KeptIsAnswer(s, k);
        var a :| a in s.answers && |a.question.contract| == ADDRESS_LENGTH && KeyOf(a.question) == k
          && a.isValid == s.cache.delegate[k].value
          && s.cache.timers[s.cache.delegate[k].timer].due == a.at + Ttl(a.isValid) && a.at <= s.cache.now;
        assert a in t.answers;
        assert t.cache.delegate[k] == s.cache.delegate[k];
      }
    }
    forall v <- t.verdicts ensures VerdictIsFresh(t.answers, v) {
      if v in s.verdicts {
        FreshLater(s.answers, answer, v);
      }
    }
  }

  lemma FreshLater(answers: seq<Verdict>, answer: Verdict, v: Verdict)
    requires VerdictIsFresh(answers, v)
    ensures VerdictIsFresh(answers + [answer], v)
  {
    var a :| a in answers && a.question.contract == v.question.contract && a.question.signer == v.question.signer
      && a.isValid == v.isValid && a.at <= v.at <= a.at + Ttl(v.isValid);
    assert a in answers + [answer];
  }

  lemma CacheStepKeeps(s: State, e: Event<Key, bool>)
    requires Valid(s) && Enabled(s.cache, e) && (e.TimerFires? || e.Pass?)
    ensures Valid(s.(cache := TtlMaps.Apply(s.cache, Ttl, e)))
  {
    var t := s.(cache := TtlMaps.Apply(s.cache, Ttl, e));
    TtlMaps.StepKeeps(s.cache, Ttl, e);
    forall k <- t.cache.delegate ensures KeptIsAnswer(t, k) {
      assert KeptIsAnswer(s, k);
    }
  }

  lemma StepKeepsValid(s: State, e: Step)
    requires Valid(s) && CanStep(s, e)
    ensures Valid(Next(s, e))
  {
    match e
    case Ask(c, q) => AskKeeps(s, c, q);
    case Answer(c, result) => AnswerKeeps(s, c, result);
    case ChainFails(c) =>
      var t := AfterChainFailure(s, c);
      forall k <- t.cache.delegate ensures KeptIsAnswer(t, k) {
        assert KeptIsAnswer(s, k);
      }
    case Timer(t) => CacheStepKeeps(s, TimerFires(t));
    case Elapse(time) => CacheStepKeeps(s, Pass(time));
  }

  // ------------------------------------------------------------------ runs

  ghost predicate IsRun(start: nat, states: seq<State>, steps: seq<Step>) {
    && |states| == |steps| + 1
    && states[0] == State(Empty(start), map[], [], [])
    && forall i | 0 <= i < |steps| :: CanStep(states[i], steps[i]) && states[i + 1] == Next(states[i], steps[i])
  }

  lemma {:induction false} ReachableValid(start: nat, states: seq<State>, steps: seq<Step>, i: nat)
    requires IsRun(start, states, steps) && i < |states|
    ensures Valid(states[i])
  {
    if i > 0 {
      ReachableValid(start, states, steps, i - 1);
      StepKeepsValid(states[i - 1], steps[i - 1]);
    }
  }

  /** In every run, every verdict returned is what the chain answered for the same contract and signer, recently. */
  lemma VerdictsAreFresh(start: nat, states: seq<State>, steps: seq<Step>, i: nat, v: Verdict)
    requires IsRun(start, states, steps) && i < |states| && v in states[i].verdicts
    ensures exists a <- states[i].answers ::
      a.question.contract == v.question.contract && a.question.signer == v.question.signer && a.isValid == v.isValid
      && v.at - (if v.isValid then 600000 else 20000) <= a.at <= v.at
  {
    ReachableValid(start, states, steps, i);
    assert VerdictIsFresh(states[i].answers, v);
  }

  /** The answers on record are the chain's: each is the result of an earlier step, judged by the magic value. */
  lemma {:induction false} AnswersAreTheChains(start: nat, states: seq<State>, steps: seq<Step>, i: nat, a: Verdict)
    requires IsRun(start, states, steps) && i < |states| && a in states[i].answers
    ensures exists k ::
              && 0 <= k < i && steps[k].Answer? && steps[k].c in states[k].waiting
              && states[k].waiting[steps[k].c] == a.question
              && (a.isValid <==> steps[k].result == "0x1626ba7e") && a.at == states[k].cache.now
  {
    var s, e := states[i - 1], steps[i - 1];
    if a in s.answers {
      AnswersAreTheChains(start, states, steps, i - 1, a);
    } else {
      assert CanStep(s, e) && states[i] == Next(s, e);
    }
  }

  /** Step `j` is the chain's answer to a question with this key. */
  ghost predicate AnswersKey(states: seq<State>, steps: seq<Step>, j: nat, key: Key)
    requires j < |steps| <= |states|
  {
    steps[j].Answer? && steps[j].c in states[j].waiting && KeyOf(states[j].waiting[steps[j].c]) == key
  }

  /** And it is the last one before step `k`. */
  ghost predicate LastAnswer(states: seq<State>, steps: seq<Step>, k: nat, key: Key, j: nat)
    requires k <= |steps| <= |states|
  {
    j < k && AnswersKey(states, steps, j, key) && forall m | j < m < k :: !AnswersKey(states, steps, m, key)
  }

  /** What is kept for a key is kept from the step before, unless the step is an answer for that key. */
  lemma KeptBefore(s: State, e: Step, key: Key)
    requires Valid(s) && CanStep(s, e) && key in Next(s, e).cache.delegate
    requires !(e.Answer? && KeyOf(s.waiting[e.c]) == key)
    ensures key in s.cache.delegate && s.cache.delegate[key].value == Next(s, e).cache.delegate[key].value
  {
  }

  /** The last answer for the key before step `k` has this verdict. */
  ghost predicate LastVerdict(states: seq<State>, steps: seq<Step>, k: nat, key: Key, isValid: bool)
    requires k <= |steps| <= |states|
  {
    exists j: nat :: LastAnswer(states, steps, k, key, j) && isValid == Approves(steps[j].result)
  }

  lemma LastVerdictStays(states: seq<State>, steps: seq<Step>, k: nat, key: Key, isValid: bool)
    requires k < |steps| <= |states| && LastVerdict(states, steps, k, key, isValid)
        && !AnswersKey(states, steps, k, key)
    ensures LastVerdict(states, steps, k + 1, key, isValid)
  {
    var j: nat :| LastAnswer(states, steps, k, key, j) && isValid == Approves(steps[j].result);
    assert LastAnswer(states, steps, k + 1, key, j);
  }

  lemma AnswerIsLast(states: seq<State>, steps: seq<Step>, k: nat, key: Key)
    requires k < |steps| <= |states| && AnswersKey(states, steps, k, key)
    ensures LastVerdict(states, steps, k + 1, key, Approves(steps[k].result))
  {
    assert LastAnswer(states, steps, k + 1, key, k);
  }

  /** Over every run, what is kept for a key is the last answer of the chain to a question with that key. */
  lemma {:induction false} KeptIsLastAnswer(start: nat, states: seq<State>, steps: seq<Step>, k: nat, key: Key)
    requires IsRun(start, states, steps) && k < |states| && key in states[k].cache.delegate
    ensures LastVerdict(states, steps, k, key, states[k].cache.delegate[key].value)
  {
    if k > 0 {
      var s, e := states[k - 1], steps[k - 1];
      ReachableValid(start, states, steps, k - 1);
      assert CanStep(s, e) && states[k] == Next(s, e);
      if AnswersKey(states, steps, k - 1, key) {
        AnswerIsLast(states, steps, k - 1, key);
      } else {
        KeptBefore(s, e, key);
        KeptIsLastAnswer(start, states, steps, k - 1, key);
        LastVerdictStays(states, steps, k - 1, key, s.cache.delegate[key].value);
      }
    }
  }

  /** When the verdict given at step `j` is too old: after ten minutes if it approved, else after 20 seconds. */
  ghost function ExpiryOf(states: seq<State>, steps: seq<Step>, j: nat): nat
    requires j < |steps| <= |states| && steps[j].Answer?
  {
    states[j].cache.now + if steps[j].result == "0x1626ba7e" then 600000 else 20000
  }

  /** What is kept for the key goes when it expires, and not before. */
  ghost predicate KeptUntil(s: State, key: Key, expiry: nat) {
    && (key in s.cache.delegate ==>
          s.cache.delegate[key].timer in s.cache.timers && s.cache.timers[s.cache.delegate[key].timer].due == expiry)
    && (key !in s.cache.delegate ==> expiry <= s.cache.now)
  }

  lemma AnswerIsKept(s: State, c: CallId, result: string)
    requires Valid(s) && CanStep(s, Answer(c, result))
    ensures KeptUntil(Next(s, Answer(c, result)), KeyOf(s.waiting[c]),
                      s.cache.now + if result == "0x1626ba7e" then 600000 else 20000)
  {
  }

  lemma OtherAnswersKeep(s: State, e: Step, key: Key, expiry: nat)
    requires Valid(s) && CanStep(s, e) && KeptUntil(s, key, expiry)
    requires e.Answer? && KeyOf(s.waiting[e.c]) != key
    ensures KeptUntil(Next(s, e), key, expiry)
  {
  }

  lemma TimersKeep(s: State, t: TimerId, key: Key, expiry: nat)
    requires Valid(s) && CanStep(s, Step.Timer(t)) && KeptUntil(s, key, expiry)
    ensures KeptUntil(Next(s, Step.Timer(t)), key, expiry)
  {
  }

  lemma KeptOn(s: State, e: Step, key: Key, expiry: nat)
    requires Valid(s) && CanStep(s, e) && KeptUntil(s, key, expiry)
    requires !(e.Answer? && KeyOf(s.waiting[e.c]) == key)
    ensures KeptUntil(Next(s, e), key, expiry)
  {
    match e
    case Answer(c, result) => OtherAnswersKeep(s, e, key, expiry);
    case Timer(t) => TimersKeep(s, t, key, expiry);
    case _ =>
  }

  lemma LastAnswerBefore(states: seq<State>, steps: seq<Step>, k: nat, key: Key, j: nat)
    requires 0 < k <= |steps| <= |states| && LastAnswer(states, steps, k, key, j)
    ensures j < k - 1 ==> LastAnswer(states, steps, k - 1, key, j) && !AnswersKey(states, steps, k - 1, key)
  {
  }

  lemma RunStep(start: nat, states: seq<State>, steps: seq<Step>, k: nat)
    requires IsRun(start, states, steps) && k < |steps|
    ensures Valid(states[k]) && CanStep(states[k], steps[k]) && states[k + 1] == Next(states[k], steps[k])
  {
    ReachableValid(start, states, steps, k);
  }

  lemma KeptFirst(start: nat, states: seq<State>, steps: seq<Step>, j: nat, key: Key)
    requires IsRun(start, states, steps) && j < |steps| && AnswersKey(states, steps, j, key)
    ensures KeptUntil(states[j + 1], key, ExpiryOf(states, steps, j))
  {
    RunStep(start, states, steps, j);
    AnswerIsKept(states[j], steps[j].c, steps[j].result);
  }

  lemma KeptNext(start: nat, states: seq<State>, steps: seq<Step>, k: nat, key: Key, expiry: nat)
    requires IsRun(start, states, steps) && k < |steps| && !AnswersKey(states, steps, k, key)
    requires KeptUntil(states[k], key, expiry)
    ensures KeptUntil(states[k + 1], key, expiry)
  {
    RunStep(start, states, steps, k);
    KeptOn(states[k], steps[k], key, expiry);
  }

  lemma {:induction false} KeptSince(start: nat, states: seq<State>, steps: seq<Step>, k: nat, key: Key, j: nat)
    requires IsRun(start, states, steps) && k < |states| && LastAnswer(states, steps, k, key, j)
    ensures KeptUntil(states[k], key, ExpiryOf(states, steps, j))
  {
    LastAnswerBefore(states, steps, k, key, j);
    if j == k - 1 {
      KeptFirst(start, states, steps, j, key);
    } else {
      KeptSince(start, states, steps, k - 1, key, j);
      KeptNext(start, states, steps, k - 1, key, ExpiryOf(states, steps, j));
    }
  }

  /** Over every run, the last answer for a key is kept until it is too old, and no longer. */
  lemma KeptExactly(start: nat, states: seq<State>, steps: seq<Step>, k: nat, key: Key, j: nat)
    requires IsRun(start, states, steps) && k < |states| && LastAnswer(states, steps, k, key, j)
    ensures states[k].cache.now < ExpiryOf(states, steps, j) ==> key in states[k].cache.delegate
    ensures ExpiryOf(states, steps, j) < states[k].cache.now ==> key !in states[k].cache.delegate
  {
    KeptSince(start, states, steps, k, key, j);
    ReachableValid(start, states, steps, k);
  }

  /** A question with the same key is about the same contract and signer, so it is the same if the payload is. */
  ghost predicate SameButPayload(asked: Question, q: Question) {
    asked.contract == q.contract && asked.signer == q.signer && (asked == q <==> asked.payload == q.payload)
  }

  lemma AskedTheSame(start: nat, states: seq<State>, steps: seq<Step>, k: nat, q: Question, j: nat)
    requires IsRun(start, states, steps) && k <= |steps| && |q.contract| == ADDRESS_LENGTH
    requires LastAnswer(states, steps, k, KeyOf(q), j)
    ensures SameButPayload(states[j].waiting[steps[j].c], q)
  {
    ReachableValid(start, states, steps, j);
    var asked := states[j].waiting[steps[j].c];
    KeyDetermines(asked.contract, asked.signer, q.contract, q.signer);
  }

  /**
    The verdict on `q` at a step repeats the answer of step `j`, which was about the same payload
    exactly if it was the same question.
   */
  ghost predicate Repeats(states: seq<State>, steps: seq<Step>, k: nat, q: Question, j: nat)
    requires k < |steps| && |states| == |steps| + 1
  {
    && LastAnswer(states, steps, k + 1, KeyOf(q), j)
    && SameButPayload(states[j].waiting[steps[j].c], q)
    && states[k + 1].verdicts == states[k].verdicts + [Verdict(q, Approves(steps[j].result), states[k].cache.now)]
  }

  /**
    A call asks the chain about its very payload if and only if nothing is kept for its contract and
    signer. Else it repeats the last answer there was for them, which is about its payload if and
    only if that was asked about the same payload.
   */
  lemma AskIsExact(start: nat, states: seq<State>, steps: seq<Step>, k: nat)
    requires IsRun(start, states, steps) && k < |steps| && steps[k].Ask?
    ensures var q, s, t := steps[k].q, states[k], states[k + 1];
      if KeyOf(q) !in s.cache.delegate then t.waiting == s.waiting[steps[k].c := q] && t.verdicts == s.verdicts
      else t.waiting == s.waiting && exists j: nat :: Repeats(states, steps, k, q, j)
  {
    var q := steps[k].q;
    assert CanStep(states[k], steps[k]) && states[k + 1] == Next(states[k], steps[k]);
    if KeyOf(q) in states[k].cache.delegate {
      KeptIsLastAnswer(start, states, steps, k, KeyOf(q));
      var j: nat :| LastAnswer(states, steps, k, KeyOf(q), j)
        && states[k].cache.delegate[KeyOf(q)].value == Approves(steps[j].result);
      AskedTheSame(start, states, steps, k, q, j);
      assert LastAnswer(states, steps, k + 1, KeyOf(q), j);
      assert Repeats(states, steps, k, q, j);
    }
  }

  /** The answer to a waiting call becomes its own verdict. */
  lemma AnswerIsOwn(start: nat, states: seq<State>, steps: seq<Step>, k: nat)
    requires IsRun(start, states, steps) && k < |steps| && steps[k].Answer?
    ensures steps[k].c in states[k].waiting && Repeats(states, steps, k, states[k].waiting[steps[k].c], k)
    ensures states[k + 1].waiting == states[k].waiting - {steps[k].c}
  {
    assert CanStep(states[k], steps[k]) && states[k + 1] == Next(states[k], steps[k]);
    var q := states[k].waiting[steps[k].c];
    assert AnswersKey(states, steps, k, KeyOf(q));
  }

  /** A failure of the chain leaves all as it is: whatever is kept then is an earlier answer. */
  lemma FailureIsNotKept(start: nat, states: seq<State>, steps: seq<Step>, k: nat, key: Key)
    requires IsRun(start, states, steps) && k < |steps| && steps[k].ChainFails?
    ensures states[k + 1].cache == states[k].cache && states[k + 1].verdicts == states[k].verdicts
    ensures steps[k].c in states[k].waiting && states[k + 1].waiting == states[k].waiting - {steps[k].c}
    ensures key in states[k + 1].cache.delegate
        ==> LastVerdict(states, steps, k, key, states[k + 1].cache.delegate[key].value)
  {
    assert CanStep(states[k], steps[k]) && states[k + 1] == Next(states[k], steps[k]);
    if key in states[k].cache.delegate {
      KeptIsLastAnswer(start, states, steps, k, key);
    }
  }

  /** The key leaves the payload out: a verdict may have been given about another payload of the signer. */
  lemma OtherPayloads(contract: string, signer: string, p: seq<bv8>, q: seq<bv8>)
    requires |contract| == ADDRESS_LENGTH
    ensures exists states: seq<State>, steps: seq<Step> ::
              && IsRun(0, states, steps)
              && states[|steps|].answers == [Verdict(Question(contract, signer, p), true, 0)]
              && states[|steps|].verdicts
                  == [Verdict(Question(contract, signer, p), true, 0), Verdict(Question(contract, signer, q), true, 0)]
  {
    var s0 := State(Empty(0), map[], [], []);
    var steps := [Ask(0, Question(contract, signer, p)), Answer(0, SUCCESS_MAGIC_VALUE),
        Ask(1, Question(contract, signer, q))];
    var s1 := Next(s0, steps[0]);
    var s2 := Next(s1, steps[1]);
    var s3 := Next(s2, steps[2]);
    assert IsRun(0, [s0, s1, s2, s3], steps);
    assert [s0, s1, s2, s3][|steps|] == s3;
    assert [] + [Verdict(Question(contract, signer, p), true, 0)] == [Verdict(Question(contract, signer, p), true, 0)];
  }

  // ------------------------------------------------------------------ the class

  class ERC1271ContractFacade {
    const publisherCache: MapWithTtl<Key, bool>
    var waiting: map<CallId, Question>
    ghost var answers: seq<Verdict>
    ghost var verdicts: seq<Verdict>

    ghost function Value(): State
      reads this, publisherCache
    {
      State(publisherCache.Value(), waiting, answers, verdicts)
    }

    ghost predicate UsesTtl()
      reads this
    {
      forall b :: publisherCache.getTtl(b) == Ttl(b)
    }

    constructor (now: nat)
      ensures UsesTtl() && fresh(publisherCache)
      ensures Value() == State(Empty(now), map[], [], [])
    {
      publisherCache := new MapWithTtl(Ttl, now);
      waiting, answers, verdicts := map[], [], [];
    }

    /** `isValidSignature` up to its first wait: the verdict, if one is kept. */
    method IsValidSignature(c: CallId, q: Question) returns (ending: Option<Ending>)
      requires c !in waiting
      modifies this
      ensures Value() == AfterAsk(old(Value()), c, q)
      ensures ending == (match Get(old(publisherCache.Value()), KeyOf(q))
                         case Some(isValid) => Some(Returned(isValid))
                         case None => None)
    {
      var cachedValue := publisherCache.GetEntry(KeyOf(q));
      if cachedValue.Some? {
        verdicts := verdicts + [Verdict(q, cachedValue.value, publisherCache.now)];
        return Some(Returned(cachedValue.value));
      }
      waiting := waiting[c := q];
      return None;
    }

    method OnResult(c: CallId, result: string) returns (ending: Ending)
      requires c in waiting && UsesTtl()
      modifies this, publisherCache
      ensures Value() == AfterAnswer(old(Value()), c, result)
      ensures ending == Returned(Approves(result))
    {
      var q := waiting[c];
      var isValid := Approves(result);
      answers := answers + [Verdict(q, isValid, publisherCache.now)];
      verdicts := verdicts + [Verdict(q, isValid, publisherCache.now)];
      publisherCache.SetEntry(KeyOf(q), isValid);
      waiting := waiting - {c};
      return Returned(isValid);
    }

    method OnFailure(c: CallId) returns (ending: Ending)
      requires c in waiting
      modifies this
      ensures Value() == AfterChainFailure(old(Value()), c)
      ensures ending == ChainUnavailable
    {
      waiting := waiting - {c};
      return ChainUnavailable;
    }
  }
}

/**
  `ProxyNodeFinder.ts`: as many workers as proxies are wanted take operators off a shared list and
  race to find one node of each. A worker runs undisturbed from one reply to its next question.
 */
module ProxyNodeFinders {
  import opened Wrappers

  type Operator = string

  type Node = string

  datatype Answer = Discovered(nodes: seq<Node>) | Failed

  predicate GaveNodes(a: Answer) { a.Discovered? && a.nodes != [] }

  /**
    `workers` holds the index of the operator each worker waits for, or None once its loop has
    ended; `asked`, `answers` and `givers` record the questions, the replies, and where each found
    node is from.
   */
  datatype Search = Search(
    operatorIndex: nat,
    foundProxies: seq<Node>,
    workers: seq<Option<nat>>,
    enough: bool,
    asked: seq<Operator>,
    answers: map<nat, Answer>,
    givers: seq<nat>
  )

  // ------------------------------------------------------------------ steps

  /** The head of a worker's loop: ask the next operator, or end. */
  function TakeNext(operators: seq<Operator>, n: nat, s: Search, w: nat): Search
    requires w < |s.workers|
  {
    if s.operatorIndex < |operators| && |s.foundProxies| < n then
      s.(workers := s.workers[w := Some(s.operatorIndex)], operatorIndex := s.operatorIndex + 1,
         asked := s.asked + [operators[s.operatorIndex]])
    else s.(workers := s.workers[w := None])
  }

  /** The first `k` workers are started, one after the other. */
  function Started(operators: seq<Operator>, n: nat, k: nat): (s: Search)
    ensures |s.workers| == k && s.answers == map[]
  {
    if k == 0 then Search(0, [], [], false, [], map[], [])
    else
      var s := Started(operators, n, k - 1);
      TakeNext(operators, n, s.(workers := s.workers + [None]), k - 1)
  }

  /** A worker's operator has replied; of its nodes number `pick` is sampled. */
  predicate CanResume(s: Search, w: nat, answer: Answer, pick: nat) {
    w < |s.workers| && s.workers[w].Some? && (GaveNodes(answer) ==> pick < |answer.nodes|)
  }

  function Noted(n: nat, s: Search, w: nat, answer: Answer, pick: nat): Search
    requires CanResume(s, w, answer, pick)
  {
    var noted := s.(answers := s.answers[s.workers[w].value := answer]);
    if !GaveNodes(answer) || |s.foundProxies| >= n then noted
    else
      noted.(foundProxies := s.foundProxies + [answer.nodes[pick]], givers := s.givers + [s.workers[w].value],
             enough := s.enough || |s.foundProxies| + 1 >= n)
  }

  function Resume(operators: seq<Operator>, n: nat, s: Search, w: nat, answer: Answer, pick: nat): Search
    requires CanResume(s, w, answer, pick)
  {
    TakeNext(operators, n, Noted(n, s, w, answer, pick), w)
  }

  /** The race is over when the signal is given or every worker has ended. */
  ghost predicate Over(s: Search) { s.enough || forall w | 0 <= w < |s.workers| :: s.workers[w].None? }

  datatype Outcome = Proxies(nodes: seq<Node>) | NotEnoughResolved(found: nat) | NotEnoughOperators(found: nat)

  /** What `find` returns or throws when it goes on after the race. */
  function Conclude(n: nat, s: Search): Outcome {
    if |s.foundProxies| < n then NotEnoughResolved(|s.foundProxies|) else Proxies(s.foundProxies)
  }

  // ------------------------------------------------------------------ the invariant

  ghost predicate Asking(operators: seq<Operator>, s: Search) {
    && s.operatorIndex <= |operators|
    && s.asked == operators[..s.operatorIndex]
    && (forall w | 0 <= w < |s.workers| && s.workers[w].Some? ::
        s.workers[w].value < s.operatorIndex && s.workers[w].value !in s.answers)
    && (forall v, w | 0 <= v < w < |s.workers| && s.workers[v].Some? :: s.workers[v] != s.workers[w])
  }

  /** Every operator taken off the list has replied or is still being waited for. */
  ghost predicate Accounted(s: Search) {
    && (forall k <- s.answers :: k < s.operatorIndex)
    && (forall k | 0 <= k < s.operatorIndex :: k in s.answers || Some(k) in s.workers)
  }

  ghost predicate Giving(n: nat, s: Search) {
    && |s.givers| == |s.foundProxies| <= n
    && (forall i, j | 0 <= i < j < |s.givers| :: s.givers[i] != s.givers[j])
    && (forall i | 0 <= i < |s.givers| ::
          s.givers[i] in s.answers && GaveNodes(s.answers[s.givers[i]])
              && s.foundProxies[i] in s.answers[s.givers[i]].nodes)
    && (|s.foundProxies| < n ==> forall k <- s.answers :: GaveNodes(s.answers[k]) ==> k in s.givers)
  }

  ghost predicate Ending(operators: seq<Operator>, n: nat, s: Search) {
    && (s.enough <==> 0 < n == |s.foundProxies|)
    && forall w | 0 <= w < |s.workers| && s.workers[w].None? :: s.operatorIndex == |operators| || |s.foundProxies| == n
  }

  ghost predicate Inv(operators: seq<Operator>, n: nat, s: Search) {
    Asking(operators, s) && Accounted(s) && Giving(n, s) && Ending(operators, n, s)
  }

  /** Like the invariant, but worker `w` stands at the head of its loop. */
  ghost predicate AtHead(operators: seq<Operator>, n: nat, s: Search, w: nat) {
    && w < |s.workers| && s.workers[w].None?
    && Asking(operators, s) && Accounted(s) && Giving(n, s)
    && (s.enough <==> 0 < n == |s.foundProxies|)
    && forall v | 0 <= v < |s.workers| && v != w && s.workers[v].None? ::
        s.operatorIndex == |operators| || |s.foundProxies| == n
  }

  lemma TakeNextKeeps(operators: seq<Operator>, n: nat, s: Search, w: nat)
    requires AtHead(operators, n, s, w)
    ensures Inv(operators, n, TakeNext(operators, n, s, w))
  {
    var t := TakeNext(operators, n, s, w);
    if s.operatorIndex < |operators| && |s.foundProxies| < n {
      assert t.workers[w] == Some(s.operatorIndex);
      forall k | 0 <= k < s.operatorIndex && k !in s.answers ensures Some(k) in t.workers {
        var v :| 0 <= v < |s.workers| && s.workers[v] == Some(k);
        assert t.workers[v] == Some(k);
      }
    } else {
      assert t.workers == s.workers;
    }
  }

  lemma {:induction false} StartKeeps(operators: seq<Operator>, n: nat, k: nat)
    requires k <= n
    ensures Inv(operators, n, Started(operators, n, k))
  {
    if k > 0 {
      StartKeeps(operators, n, k - 1);
      var s := Started(operators, n, k - 1);
      var t := s.(workers := s.workers + [None]);
      forall i | Some(i) in s.workers ensures Some(i) in t.workers {
        var v :| 0 <= v < |s.workers| && s.workers[v] == Some(i);
        assert t.workers[v] == Some(i);
      }
      TakeNextKeeps(operators, n, t, k - 1);
    }
  }

  lemma NotedKeeps(operators: seq<Operator>, n: nat, s: Search, w: nat, answer: Answer, pick: nat)
    requires Inv(operators, n, s) && CanResume(s, w, answer, pick)
    ensures var t := Noted(n, s, w, answer, pick);
            AtHead(operators, n, t.(workers := t.workers[w := None]), w)
  {
    var t := Noted(n, s, w, answer, pick);
    var u := t.(workers := t.workers[w := None]);
    forall k | 0 <= k < s.operatorIndex && k !in t.answers ensures Some(k) in u.workers {
      var v :| 0 <= v < |s.workers| && s.workers[v] == Some(k);
      assert u.workers[v] == Some(k);
    }
    NotedGiving(operators, n, s, w, answer, pick);
  }

  lemma NotedGiving(operators: seq<Operator>, n: nat, s: Search, w: nat, answer: Answer, pick: nat)
    requires Inv(operators, n, s) && CanResume(s, w, answer, pick)
    ensures Giving(n, Noted(n, s, w, answer, pick))
  {
    var t := Noted(n, s, w, answer, pick);
    var k := s.workers[w].value;
    assert forall i | 0 <= i < |s.givers| :: s.givers[i] != k;
    if GaveNodes(answer) && |s.foundProxies| < n {
      assert t.givers[|s.givers|] == k;
      forall j | j in s.givers ensures j in t.givers {
        var i :| 0 <= i < |s.givers| && s.givers[i] == j;
        assert t.givers[i] == j;
      }
    }
  }

  lemma ResumeKeeps(operators: seq<Operator>, n: nat, s: Search, w: nat, answer: Answer, pick: nat)
    requires Inv(operators, n, s) && CanResume(s, w, answer, pick)
    ensures Inv(operators, n, Resume(operators, n, s, w, answer, pick))
  {
    var t := Noted(n, s, w, answer, pick);
    var u := t.(workers := t.workers[w := None]);
    NotedKeeps(operators, n, s, w, answer, pick);
    TakeNextKeeps(operators, n, u, w);
    assert u.workers[w := Some(u.operatorIndex)] == t.workers[w := Some(u.operatorIndex)];
    assert u.workers[w := None] == t.workers[w := None];
  }

  // ------------------------------------------------------------------ every interleaving

  datatype Event = Event(worker: nat, answer: Answer, pick: nat)

  ghost predicate IsRun(operators: seq<Operator>, n: nat, states: seq<Search>, events: seq<Event>) {
    && |states| == |events| + 1
    && states[0] == Started(operators, n, n)
    && forall i | 0 <= i < |events| ::
         && CanResume(states[i], events[i].worker, events[i].answer, events[i].pick)
         && states[i + 1] == Resume(operators, n, states[i], events[i].worker, events[i].answer, events[i].pick)
  }

  lemma {:induction false} ReachableValid(operators: seq<Operator>, n: nat, states: seq<Search>, events: seq<Event>,
                                          i: nat)
    requires IsRun(operators, n, states, events) && i < |states|
    ensures Inv(operators, n, states[i])
  {
    if i == 0 {
      StartKeeps(operators, n, n);
    } else {
      ReachableValid(operators, n, states, events, i - 1);
      ResumeKeeps(operators, n, states[i - 1], events[i - 1].worker, events[i - 1].answer, events[i - 1].pick);
    }
  }

  ghost function Sampled(e: Event): seq<Node> {
    if GaveNodes(e.answer) && e.pick < |e.answer.nodes| then [e.answer.nodes[e.pick]] else []
  }

  /** The nodes sampled from the replies that had any, in the order of the replies. */
  ghost function Picks(events: seq<Event>, i: nat): seq<Node>
    requires i <= |events|
  {
    if i == 0 then [] else Picks(events, i - 1) + Sampled(events[i - 1])
  }

  ghost function AtMost(nodes: seq<Node>, n: nat): seq<Node> { if |nodes| <= n then nodes else nodes[..n] }

  lemma OneMorePick(nodes: seq<Node>, n: nat, node: Node)
    ensures AtMost(nodes + [node], n) == if |AtMost(nodes, n)| < n then AtMost(nodes, n) + [node] else AtMost(nodes, n)
    ensures AtMost(nodes + [], n) == AtMost(nodes, n)
  {
    assert nodes + [] == nodes;
  }

  /** Over every run, what has been found are the first `n` of the sampled nodes, in the order of the replies. */
  lemma {:induction false} FoundExactly(operators: seq<Operator>, n: nat, states: seq<Search>, events: seq<Event>,
                                        i: nat)
    requires IsRun(operators, n, states, events) && i < |states|
    ensures states[i].foundProxies == AtMost(Picks(events, i), n)
  {
    if i == 0 {
      NothingFoundYet(operators, n, n);
    } else {
      var s, e := states[i - 1], events[i - 1];
      FoundExactly(operators, n, states, events, i - 1);
      assert CanResume(s, e.worker, e.answer, e.pick);
      FindsExactly(operators, n, s, e.worker, e.answer, e.pick);
      if GaveNodes(e.answer) {
        OneMorePick(Picks(events, i - 1), n, e.answer.nodes[e.pick]);
      } else {
        OneMorePick(Picks(events, i - 1), n, "");
      }
    }
  }

  lemma {:induction false} NothingFoundYet(operators: seq<Operator>, n: nat, k: nat)
    ensures Started(operators, n, k).foundProxies == []
  {
    if k > 0 {
      NothingFoundYet(operators, n, k - 1);
    }
  }

  lemma FindsExactly(operators: seq<Operator>, n: nat, s: Search, w: nat, answer: Answer, pick: nat)
    requires CanResume(s, w, answer, pick)
    ensures Resume(operators, n, s, w, answer, pick).foundProxies
         == s.foundProxies + if GaveNodes(answer) && |s.foundProxies| < n then [answer.nodes[pick]] else []
  {
    assert s.foundProxies + [] == s.foundProxies;
  }

  /**
    After a reply its worker asks the next operator of the list, if there is one and not enough nodes have
    been found; otherwise it ends. The other workers go on waiting.
   */
  lemma AsksExactly(operators: seq<Operator>, n: nat, s: Search, w: nat, answer: Answer, pick: nat)
    requires Inv(operators, n, s) && CanResume(s, w, answer, pick)
    ensures var t := Resume(operators, n, s, w, answer, pick);
      && |t.workers| == |s.workers| && (forall v | 0 <= v < |s.workers| && v != w :: t.workers[v] == s.workers[v])
      && if |s.asked| < |operators| && |t.foundProxies| < n then
           t.asked == s.asked + [operators[|s.asked|]] && t.workers[w] == Some(|s.asked|)
         else t.asked == s.asked && t.workers[w] == None
  {
  }

  /** With as many operators as workers, every worker begins with an operator of its own. */
  lemma {:induction false} EveryWorkerStarts(operators: seq<Operator>, n: nat, k: nat)
    requires k <= n <= |operators|
    ensures var s := Started(operators, n, k);
            s.operatorIndex == k && s.foundProxies == [] && forall w | 0 <= w < k :: s.workers[w] == Some(w)
  {
    if k > 0 {
      EveryWorkerStarts(operators, n, k - 1);
    }
  }

  /** The operators asked, in the order they were asked, are a prefix of the list, so none is asked twice. */
  lemma NoneAskedTwice(operators: seq<Operator>, n: nat, states: seq<Search>, events: seq<Event>, i: nat)
    requires IsRun(operators, n, states, events) && i < |states|
    requires forall a, b | 0 <= a < b < |operators| :: operators[a] != operators[b]
    ensures states[i].asked <= operators
    ensures forall a, b | 0 <= a < b < |states[i].asked| :: states[i].asked[a] != states[i].asked[b]
  {
    ReachableValid(operators, n, states, events, i);
  }

  lemma {:induction false} FoundStays(operators: seq<Operator>, n: nat, states: seq<Search>, events: seq<Event>,
                                      i: nat, j: nat)
    requires IsRun(operators, n, states, events) && i <= j < |states| && |states[i].foundProxies| >= n
    ensures states[j].foundProxies == states[i].foundProxies
  {
    if i < j {
      FoundStays(operators, n, states, events, i, j - 1);
    }
  }

  lemma SomeoneWaits(operators: seq<Operator>, n: nat, states: seq<Search>, events: seq<Event>, i: nat)
    requires IsRun(operators, n, states, events) && i < |events|
    ensures exists w :: 0 <= w < |states[i].workers| && states[i].workers[w].Some?
  {
    assert CanResume(states[i], events[i].worker, events[i].answer, events[i].pick);
  }

  /** Whatever the workers still hear after the race, `find` concludes the same. */
  lemma ResultIsFinal(operators: seq<Operator>, n: nat, states: seq<Search>, events: seq<Event>, i: nat, j: nat)
    requires IsRun(operators, n, states, events) && i <= j < |states| && Over(states[i])
    ensures Conclude(n, states[j]) == Conclude(n, states[i])
  {
    ReachableValid(operators, n, states, events, i);
    if |states[i].foundProxies| >= n {
      FoundStays(operators, n, states, events, i, j);
    } else if i < j {
      SomeoneWaits(operators, n, states, events, i);
    }
  }

  /** The operators that gave nodes. */
  ghost function Givers(s: Search): set<nat> {
    set k | k in s.answers && GaveNodes(s.answers[k])
  }

  ghost function Elements(s: seq<nat>): set<nat> {
    set k | k in s
  }

  lemma {:induction false} DistinctCount(s: seq<nat>)
    requires forall i, j | 0 <= i < j < |s| :: s[i] != s[j]
    ensures |Elements(s)| == |s|
  {
    if s != [] {
      var last := s[|s| - 1];
      DistinctCount(s[..|s| - 1]);
      assert s == s[..|s| - 1] + [last];
      assert Elements(s) == Elements(s[..|s| - 1]) + {last};
      assert last !in Elements(s[..|s| - 1]);
    }
  }

  lemma SubsetCount(a: set<nat>, b: set<nat>)
    requires a <= b
    ensures |a| <= |b|
  {
    assert b == a + (b - a);
  }

  /**
    When the race is over: the result is `n` nodes of `n` different operators, each one of those its
    operator gave, exactly if that many operators gave nodes; otherwise all operators have been
    asked and have replied.
   */
  lemma ConcludesRightly(operators: seq<Operator>, n: nat, states: seq<Search>, events: seq<Event>, i: nat)
    requires IsRun(operators, n, states, events) && i < |states| && Over(states[i]) && n <= |operators|
    ensures var s := states[i];
            match Conclude(n, s)
            case Proxies(nodes) =>
              && |nodes| == n <= |Givers(s)|
              && (forall a, b | 0 <= a < b < |s.givers| :: s.givers[a] != s.givers[b])
              && |s.givers| == n
              && (forall a | 0 <= a < n ::
                  s.givers[a] in s.answers && s.answers[s.givers[a]].Discovered?
                  && nodes[a] in s.answers[s.givers[a]].nodes)
            case NotEnoughResolved(found) =>
              && found == |Givers(s)| < n
              && forall k | 0 <= k < |operators| :: k in s.answers
            case NotEnoughOperators(_) => false
  {
    var s := states[i];
    ReachableValid(operators, n, states, events, i);
    WorkersStay(operators, n, states, events, i);
    DistinctCount(s.givers);
    SubsetCount(Elements(s.givers), Givers(s));
    if |s.foundProxies| < n {
      assert Elements(s.givers) == Givers(s);
      assert s.workers[0].None?;
    }
  }

  lemma {:induction false} WorkersStay(operators: seq<Operator>, n: nat, states: seq<Search>, events: seq<Event>,
                                       i: nat)
    requires IsRun(operators, n, states, events) && i < |states|
    ensures |states[i].workers| == n
  {
    if i > 0 {
      WorkersStay(operators, n, states, events, i - 1);
    }
  }

  lemma AnswersGrow(n: nat, s: Search, w: nat, answer: Answer, pick: nat)
    requires CanResume(s, w, answer, pick) && s.workers[w].value !in s.answers
    ensures |Noted(n, s, w, answer, pick).answers| == |s.answers| + 1
  {
    var t := s.answers[s.workers[w].value := answer];
    assert t.Keys == s.answers.Keys + {s.workers[w].value};
    assert |t| == |t.Keys| && |s.answers| == |s.answers.Keys|;
  }

  lemma {:induction false} OneReplyEach(operators: seq<Operator>, n: nat, states: seq<Search>, events: seq<Event>,
                                        i: nat)
    requires IsRun(operators, n, states, events) && i < |states|
    ensures |states[i].answers| == i
  {
    if i > 0 {
      OneReplyEach(operators, n, states, events, i - 1);
      ReachableValid(operators, n, states, events, i - 1);
      var s, e := states[i - 1], events[i - 1];
      AnswersGrow(n, s, e.worker, e.answer, e.pick);
      assert states[i] == Resume(operators, n, s, e.worker, e.answer, e.pick);
      assert states[i].answers == Noted(n, s, e.worker, e.answer, e.pick).answers;
    }
  }

  lemma {:induction false} UpTo(n: nat) returns (s: set<nat>)
    ensures |s| == n && forall k: nat :: k in s <==> k < n
  {
    if n == 0 {
      s := {};
    } else {
      var t := UpTo(n - 1);
      s := t + {n - 1};
    }
  }

  /** Each operator replies at most once, so the search ends after as many replies as there are operators. */
  lemma SearchEnds(operators: seq<Operator>, n: nat, states: seq<Search>, events: seq<Event>)
    requires IsRun(operators, n, states, events)
    ensures |events| <= |operators|
  {
    var s := states[|events|];
    ReachableValid(operators, n, states, events, |events|);
    OneReplyEach(operators, n, states, events, |events|);
    var all := UpTo(|operators|);
    SubsetCount(s.answers.Keys, all);
  }

  // ------------------------------------------------------------------ the class

  /** The variables the workers of one `find` share. */
  class ProxySearch {
    const operators: seq<Operator>
    const numberOfProxies: nat
    var operatorIndex: nat
    var foundProxies: seq<Node>
    var workers: seq<Option<nat>>
    var enough: bool
    ghost var asked: seq<Operator>
    ghost var answers: map<nat, Answer>
    ghost var givers: seq<nat>

    ghost function Value(): Search
      reads this
    {
      Search(operatorIndex, foundProxies, workers, enough, asked, answers, givers)
    }

    constructor (operators: seq<Operator>, numberOfProxies: nat)
      ensures this.operators == operators && this.numberOfProxies == numberOfProxies
      ensures Value() == Started(operators, numberOfProxies, numberOfProxies)
    {
      this.operators, this.numberOfProxies := operators, numberOfProxies;
      operatorIndex, foundProxies, workers, enough := 0, [], [], false;
      asked, answers, givers := [], map[], [];
      new;
      for k := 0 to numberOfProxies
        invariant Value() == Started(operators, numberOfProxies, k)
      {
        workers := workers + [None];
        LoopHead(k);
      }
    }

    method LoopHead(w: nat)
      requires w < |workers|
      modifies this
      ensures Value() == TakeNext(operators, numberOfProxies, old(Value()), w)
    {
      if operatorIndex < |operators| && |foundProxies| < numberOfProxies {
        asked := asked + [operators[operatorIndex]];
        workers := workers[w := Some(operatorIndex)];
        operatorIndex := operatorIndex + 1;
      } else {
        workers := workers[w := None];
      }
    }

    method OnReply(w: nat, answer: Answer, pick: nat)
      requires CanResume(Value(), w, answer, pick)
      modifies this
      ensures Value() == Resume(operators, numberOfProxies, old(Value()), w, answer, pick)
    {
      answers := answers[workers[w].value := answer];
      if answer.Discovered? && |answer.nodes| > 0 && |foundProxies| < numberOfProxies {
        foundProxies := foundProxies + [answer.nodes[pick]];
        givers := givers + [workers[w].value];
        if |foundProxies| >= numberOfProxies {
          enough := true;
        }
      }
      LoopHead(w);
    }

    method Conclusion() returns (outcome: Outcome)
      ensures outcome == Conclude(numberOfProxies, Value())
    {
      if |foundProxies| < numberOfProxies {
        return NotEnoughResolved(|foundProxies|);
      }
      return Proxies(foundProxies);
    }
  }

  /** `find` before the race: with too few operators it gives up without asking any. */
  method Begin(operators: seq<Operator>, numberOfProxies: nat)
    returns (search: Option<ProxySearch>, outcome: Option<Outcome>)
    ensures |operators| < numberOfProxies ==> search == None && outcome == Some(NotEnoughOperators(|operators|))
    ensures numberOfProxies <= |operators| ==>
      outcome == None && search.Some? && fresh(search.value)
      && search.value.Value() == Started(operators, numberOfProxies, numberOfProxies)
  {
    if |operators| < numberOfProxies {
      return None, Some(NotEnoughOperators(|operators|));
    }
    var s := new ProxySearch(operators, numberOfProxies);
    return Some(s), None;
  }
}

/** The two agent loops that drive one OpenCode session: DEV, JUDGE, SPY, FIX for a story
    (src/orchestration/phases/DeveloperPhaseV2.ts) and ANALYST, JUDGE, SPY, FIX for a task
    (src/orchestration/phases/AnalysisPhaseV2.ts). What the agents answer is arbitrary. */
module PromptLoops {
  import opened Wrappers

  const MAX_ITERATIONS := 3

  datatype Agent = Worker | Judge | Spy | Fixer
  datatype Action = Prompt(agent: Agent) | Wait

  datatype Verdict = Approved | Rejected | NeedsRevision
  datatype Judgement = Judgement(verdict: Verdict, issues: nat, score: int)

  // ---- Prompts and waits ----

  /** A run so far: how many prompts are outstanding, how often JUDGE and SPY were asked, how many waits returned, and
      whether every prompt was sent while none was outstanding and every wait began while exactly one was. */
  datatype Tally = Tally(outstanding: int, judges: nat, spies: nat, waits: nat, disciplined: bool)

  function Next(t: Tally, a: Action): Tally {
    match a
    case Prompt(agent) =>
      Tally(t.outstanding + 1, t.judges + (if agent == Judge then 1 else 0), t.spies + (if agent == Spy then 1 else 0),
            t.waits, t.disciplined && t.outstanding == 0)
    case Wait =>
      Tally(t.outstanding - 1, t.judges, t.spies, t.waits + 1, t.disciplined && t.outstanding == 1)
  }

  function Count(trace: seq<Action>): Tally {
    if trace == [] then Tally(0, 0, 0, 0, true) else Next(Count(trace[..|trace| - 1]), trace[|trace| - 1])
  }

  lemma CountNext(trace: seq<Action>, a: Action)
    ensures Count(trace + [a]) == Next(Count(trace), a)
  {
    assert (trace + [a])[..|trace|] == trace;
  }

  lemma {:induction false} DisciplinedPrefix(trace: seq<Action>, k: nat)
    requires Count(trace).disciplined && k <= |trace|
    ensures Count(trace[..k]).disciplined
  {
    if k < |trace| {
      DisciplinedPrefix(trace[..|trace| - 1], k);
      assert trace[..|trace| - 1][..k] == trace[..k];
    } else {
      assert trace[..k] == trace;
    }
  }

  // ---- What n rounds look like ----

  function Review(): seq<Action> {
    [Wait, Prompt(Judge), Wait, Prompt(Spy), Wait]
  }

  /** The prompt that opens round n: the work in the first, a fix in the later ones. */
  function Opening(n: nat): (a: Action)
    ensures a.Prompt? && a.agent != Judge && a.agent != Spy
  {
    if n == 1 then Prompt(Worker) else Prompt(Fixer)
  }

  function Script(n: nat): seq<Action> {
    if n == 0 then [] else Script(n - 1) + [Opening(n)] + Review()
  }

  /** Asking an agent and waiting for it. */
  lemma Exchange(trace: seq<Action>, agent: Agent)
    ensures Count(trace + [Prompt(agent)] + [Wait]) == Next(Next(Count(trace), Prompt(agent)), Wait)
  {
    CountNext(trace, Prompt(agent));
    CountNext(trace + [Prompt(agent)], Wait);
  }

  lemma RoundCount(trace: seq<Action>, n: nat)
    requires Count(trace) == Tally(0, n, n, 3 * n, true)
    ensures Count(trace + [Opening(n + 1)] + Review()) == Tally(0, n + 1, n + 1, 3 * n + 3, true)
  {
    var worked := trace + [Opening(n + 1)] + [Wait];
    var judged := worked + [Prompt(Judge)] + [Wait];
    Exchange(trace, Opening(n + 1).agent);
    Exchange(worked, Judge);
    Exchange(judged, Spy);
    OneByOne(trace + [Opening(n + 1)], Wait, Prompt(Judge), Prompt(Spy));
  }

  lemma OneByOne(t: seq<Action>, w: Action, j: Action, s: Action)
    ensures t + [w, j, w, s, w] == t + [w] + [j] + [w] + [s] + [w]
  {
  }

  /** In n rounds JUDGE and SPY are each asked n times, every wait has its own prompt, and none is left. */
  lemma {:induction false} ScriptCount(n: nat)
    ensures Count(Script(n)) == Tally(0, n, n, 3 * n, true)
  {
    if n > 0 {
      ScriptCount(n - 1);
      RoundCount(Script(n - 1), n - 1);
    }
  }

  /** The k-th call: prompts and waits alternate, the worker begins, JUDGE and SPY follow in every round, in that order,
      and every later round begins with a fix. */
  ghost function CallAt(k: nat): Action {
    if k % 2 == 1 then Wait
    else if k % 6 == 2 then Prompt(Judge)
    else if k % 6 == 4 then Prompt(Spy)
    else if k == 0 then Prompt(Worker)
    else Prompt(Fixer)
  }

  ghost predicate InOrder(trace: seq<Action>) {
    forall k :: 0 <= k < |trace| ==> trace[k] == CallAt(k)
  }

  lemma {:induction false} ScriptInOrder(n: nat)
    ensures |Script(n)| == 6 * n && InOrder(Script(n))
  {
    if n > 0 {
      ScriptInOrder(n - 1);
      assert Script(n) == Script(n - 1) + Round(n);
      forall j | 0 <= j < 6 ensures Round(n)[j] == CallAt(6 * (n - 1) + j) {
        RoundInOrder(n, j);
      }
      AppendInOrder(Script(n - 1), Round(n));
    }
  }

  function Round(n: nat): seq<Action> {
    [Opening(n)] + Review()
  }

  lemma RoundInOrder(n: nat, j: nat)
    requires n > 0 && j < 6
    ensures Round(n)[j] == CallAt(6 * (n - 1) + j)
  {
    var k := 6 * (n - 1) + j;
    assert k % 6 == j && k % 2 == j % 2;
    assert Round(n) == [Opening(n), Wait, Prompt(Judge), Wait, Prompt(Spy), Wait];
  }

  lemma AppendInOrder(trace: seq<Action>, more: seq<Action>)
    requires InOrder(trace) && forall j :: 0 <= j < |more| ==> more[j] == CallAt(|trace| + j)
    ensures InOrder(trace + more)
  {
    forall k | |trace| <= k < |trace + more| ensures (trace + more)[k] == CallAt(k) {
      assert more[k - |trace|] == CallAt(|trace| + (k - |trace|));
    }
  }

  /** Calls in that order leave a prompt outstanding exactly after an odd number of them. */
  lemma {:induction false} OutstandingIsParity(trace: seq<Action>)
    requires InOrder(trace)
    ensures Count(trace).outstanding == |trace| % 2
  {
    if trace != [] {
      var n := |trace| - 1;
      OutstandingIsParity(trace[..n]);
      assert trace[n].Wait? <==> n % 2 == 1;
      ParityNext(Count(trace[..n]).outstanding, n);
    }
  }

  lemma ParityNext(outstanding: int, k: nat)
    requires outstanding == k % 2
    ensures (k + 1) % 2 == if k % 2 == 1 then outstanding - 1 else outstanding + 1
  {
  }

  lemma FixInOrder(n: nat)
    requires n > 0
    ensures InOrder(Script(n) + [Prompt(Fixer)])
  {
    ScriptInOrder(n);
    RoundInOrder(n + 1, 0);
    AppendInOrder(Script(n), [Prompt(Fixer)]);
  }

  /** Doing the actions in order until one throws. */
  method Perform(actions: seq<Action>, throws: nat -> bool, done: seq<Action>) returns (ok: bool, trace: seq<Action>)
    ensures ok ==> trace == done + actions
    ensures !ok ==> done <= trace < done + actions && throws(|trace|)
    ensures forall k :: |done| <= k < |trace| ==> !throws(k)
    ensures ok <==> forall k :: |done| <= k < |done| + |actions| ==> !throws(k)
  {
    trace, ok := done, true;
    for i := 0 to |actions|
      invariant trace == done + actions[..i]
      invariant forall k :: |done| <= k < |trace| ==> !throws(k)
    {
      if throws(|trace|) {
        ok := false;
        assert done + actions == trace + actions[i..];
        return;
      }
      trace := trace + [actions[i]];
    }
  }

  predicate Quiet(throws: nat -> bool, n: nat) {
    forall k :: 0 <= k < n ==> !throws(k)
  }

  /** The first of n calls that throws, or n if none does. */
  function FirstThrow(throws: nat -> bool, n: nat): (k: nat)
    ensures k <= n && Quiet(throws, k) && (k < n ==> throws(k))
    ensures k == n <==> Quiet(throws, n)
  {
    if n == 0 then 0
    else
      var k := FirstThrow(throws, n - 1);
      if k < n - 1 || throws(n - 1) then k else n
  }

  /** Round n up to SPY's answer. */
  method ReviewRound(n: nat, throws: nat -> bool, past: seq<Action>) returns (ok: bool, trace: seq<Action>)
    requires n >= 1 && past == if n == 1 then [] else Script(n - 1) + [Prompt(Fixer)]
    requires Quiet(throws, |past|)
    ensures Quiet(throws, |trace|)
    ensures if ok then trace == Script(n) else trace < Script(n) && throws(|trace|)
  {
    ok, trace := Perform((if n == 1 then [Prompt(Worker)] else []) + Review(), throws, past);
    assert past + ((if n == 1 then [Prompt(Worker)] else []) + Review()) == Script(n);
  }

  // ---- DEV, JUDGE, SPY, FIX ----

  /** A judgement that ends the story loop: only a revision that lists issues asks for another round. */
  predicate Decides(j: Judgement) {
    j.verdict != NeedsRevision || j.issues == 0
  }

  /** The round in which the story loop ends if nothing throws. */
  function StoryRounds(judge: nat -> Judgement): (n: nat)
    ensures 1 <= n <= MAX_ITERATIONS
    ensures n < MAX_ITERATIONS ==> Decides(judge(n))
    ensures forall k :: 1 <= k < n ==> !Decides(judge(k))
  {
    if Decides(judge(1)) then 1 else if Decides(judge(2)) then 2 else 3
  }

  function StoryVerdict(judge: nat -> Judgement): Verdict {
    var last := judge(StoryRounds(judge));
    if last.verdict == NeedsRevision && last.issues == 0 then Approved else last.verdict
  }

  /** JUDGE is content: it approves, or asks for a revision and lists nothing to revise. */
  predicate Content(j: Judgement) {
    j.verdict == Approved || (j.verdict == NeedsRevision && j.issues == 0)
  }

  /** JUDGE asks for a revision and lists issues. */
  predicate AsksForMore(j: Judgement) {
    j.verdict == NeedsRevision && j.issues > 0
  }

  /** In round n JUDGE says something else than in all rounds before, in which it asked for more. */
  ghost predicate DecidedIn(judge: nat -> Judgement, n: nat) {
    1 <= n <= 3 && !AsksForMore(judge(n)) && forall k :: 1 <= k < n ==> AsksForMore(judge(k))
  }

  /** The first round in which JUDGE does not ask for more decides the story: it is approved if JUDGE is content and
      rejected otherwise; three rounds that ask for more leave it in need of revision. */
  lemma StoryVerdictExact(judge: nat -> Judgement)
    ensures StoryVerdict(judge) == Approved <==> exists n :: DecidedIn(judge, n) && Content(judge(n))
    ensures StoryVerdict(judge) == Rejected <==> exists n :: DecidedIn(judge, n) && judge(n).verdict == Rejected
    ensures forall n :: DecidedIn(judge, n) ==> n == StoryRounds(judge)
    ensures (forall n :: 1 <= n <= 3 ==> AsksForMore(judge(n))) ==> StoryRounds(judge) == 3
  {
    var n := StoryRounds(judge);
    assert !AsksForMore(judge(n)) ==> DecidedIn(judge, n);
  }

  /** Everything the story loop sends and awaits if nothing throws. */
  function StoryScript(judge: nat -> Judgement): seq<Action> {
    var n := StoryRounds(judge);
    Script(n) + if Decides(judge(n)) then [] else [Prompt(Fixer)]
  }

  /** The session of one story: at most three rounds, in which every wait consumes the one outstanding prompt; an
      exception anywhere rejects the story. */
  method ExecuteStory(judge: nat -> Judgement, throws: nat -> bool)
    returns (verdict: Verdict, iterations: nat, trace: seq<Action>)
    ensures trace == StoryTrace(judge, throws) && Count(trace).disciplined
    ensures Count(trace).outstanding == if StoryLeavesPrompt(judge, throws) then 1 else 0
    ensures trace == StoryScript(judge) ==> verdict == StoryVerdict(judge) && iterations == StoryRounds(judge)
    ensures trace != StoryScript(judge) ==> verdict == Rejected && iterations == 0
    ensures InOrder(trace) && Count(trace).outstanding == |trace| % 2
    ensures Quiet(throws, |StoryScript(judge)|) ==>
              |trace| == 6 * iterations + if verdict == NeedsRevision then 1 else 0
    ensures verdict == Approved <==>
            Quiet(throws, |StoryScript(judge)|) && exists n :: DecidedIn(judge, n) && Content(judge(n))
    ensures verdict == NeedsRevision <==>
            Quiet(throws, |StoryScript(judge)|) && forall n :: 1 <= n <= 3 ==> AsksForMore(judge(n))
  {
    verdict, iterations, trace := StoryLoop(judge, throws);
    StoryVerdictExact(judge);
    StoryInOrder(judge);
    OutstandingIsParity(trace);
    assert trace == StoryScript(judge)[..|trace|];
    StoryDiscipline(judge, throws);
  }

  method StoryLoop(judge: nat -> Judgement, throws: nat -> bool)
    returns (verdict: Verdict, iterations: nat, trace: seq<Action>)
    ensures trace <= StoryScript(judge) && |trace| == FirstThrow(throws, |StoryScript(judge)|)
    ensures trace == StoryScript(judge) ==> verdict == StoryVerdict(judge) && iterations == StoryRounds(judge)
    ensures trace != StoryScript(judge) ==> verdict == Rejected && iterations == 0
  {
    var approved, ok := false, true;
    verdict, iterations, trace := NeedsRevision, 0, [];
    while !approved && iterations < MAX_ITERATIONS
      invariant iterations <= StoryRounds(judge) && (iterations == StoryRounds(judge) ==> approved || iterations == 3)
      invariant approved ==> iterations == StoryRounds(judge) && Decides(judge(iterations)) &&
                             verdict == StoryVerdict(judge) == Approved
      invariant !approved ==> iterations == 0 || !Decides(judge(iterations))
      invariant !approved ==> verdict == NeedsRevision
      invariant trace == Script(iterations) + if approved || iterations == 0 then [] else [Prompt(Fixer)]
      invariant Quiet(throws, |trace|)
      decreases MAX_ITERATIONS - iterations
    {
      iterations := iterations + 1;
      ScriptExtends(judge, iterations);
      ok, trace := ReviewRound(iterations, throws, trace);
      if !ok {
        return Rejected, 0, trace;
      }
      verdict := judge(iterations).verdict;
      if verdict == Approved {
        approved := true;
      } else if verdict == Rejected {
        return;
      } else if judge(iterations).issues > 0 {
        ok, trace := Perform([Prompt(Fixer)], throws, trace);
        if !ok {
          return Rejected, 0, trace;
        }
      } else {
        approved := true;
        verdict := Approved;
      }
    }
  }

  lemma StoryInOrder(judge: nat -> Judgement)
    ensures InOrder(StoryScript(judge))
    ensures |StoryScript(judge)| == 6 * StoryRounds(judge) + if StoryVerdict(judge) == NeedsRevision then 1 else 0
  {
    ScriptInOrder(StoryRounds(judge));
    FixInOrder(StoryRounds(judge));
    assert Decides(judge(StoryRounds(judge))) ==> StoryScript(judge) == Script(StoryRounds(judge));
  }

  /** While the loop has not ended, what it has done so far begins everything it will do. */
  lemma ScriptExtends(judge: nat -> Judgement, n: nat)
    requires 1 <= n <= StoryRounds(judge)
    ensures Script(n) <= StoryScript(judge)
    ensures n < StoryRounds(judge) || !Decides(judge(n)) ==> Script(n) + [Prompt(Fixer)] <= StoryScript(judge)
  {
    var r := StoryRounds(judge);
    if n < r {
      ScriptGrows(n, r);
    }
  }

  lemma {:induction false} ScriptGrows(n: nat, m: nat)
    requires 1 <= n < m
    ensures Script(n) + [Prompt(Fixer)] <= Script(m)
  {
    if n + 1 < m {
      ScriptGrows(n, m - 1);
    }
  }

  /** In a disciplined script, cutting it off before a call leaves a prompt exactly if that call is a wait. */
  lemma {:induction false} CutOff(script: seq<Action>, k: nat)
    requires Count(script).disciplined && k < |script|
    ensures Count(script[..k]).outstanding == if script[k].Wait? then 1 else 0
  {
    var n := |script| - 1;
    if k < n {
      CutOff(script[..n], k);
      assert script[..n][..k] == script[..k];
    }
  }

  /** The story loop leaves a prompt nobody waits for: the call that threw was a wait, or nothing threw and the third
      judgement still asks for a revision and lists issues. */
  predicate StoryLeavesPrompt(judge: nat -> Judgement, throws: nat -> bool) {
    var script := StoryScript(judge);
    var k := FirstThrow(throws, |script|);
    if k < |script| then script[k].Wait?
    else forall n :: 1 <= n <= MAX_ITERATIONS ==> judge(n).verdict == NeedsRevision && judge(n).issues > 0
  }

  /** What a run of the story loop sends and awaits. */
  function StoryTrace(judge: nat -> Judgement, throws: nat -> bool): seq<Action> {
    StoryScript(judge)[..FirstThrow(throws, |StoryScript(judge)|)]
  }

  /** The discipline of every run of the story loop, whatever throws: a prompt is sent only while none is outstanding
      and a wait begins only while one is; and a prompt is left at the end exactly when StoryLeavesPrompt says so. A run
      that nothing throws out of asks JUDGE and SPY once per round. */
  lemma StoryDiscipline(judge: nat -> Judgement, throws: nat -> bool)
    ensures var t := Count(StoryTrace(judge, throws));
            t.disciplined && t.outstanding == if StoryLeavesPrompt(judge, throws) then 1 else 0
    ensures Count(StoryScript(judge)).judges == Count(StoryScript(judge)).spies == StoryRounds(judge)
    ensures Quiet(throws, |StoryScript(judge)|) ==>
              StoryTrace(judge, throws) == StoryScript(judge)
              && (StoryLeavesPrompt(judge, throws) <==> StoryVerdict(judge) == NeedsRevision)
  {
    var script := StoryScript(judge);
    var k := FirstThrow(throws, |script|);
    StoryScriptCount(judge);
    DisciplinedPrefix(script, k);
    if k < |script| {
      CutOff(script, k);
    } else {
      assert script[..k] == script;
    }
  }

  lemma StoryScriptCount(judge: nat -> Judgement)
    ensures var t := Count(StoryScript(judge));
            && t.disciplined && t.judges == t.spies == StoryRounds(judge)
            && t.outstanding == if StoryVerdict(judge) == NeedsRevision then 1 else 0
    ensures StoryVerdict(judge) == NeedsRevision <==>
            forall n :: 1 <= n <= MAX_ITERATIONS ==> judge(n).verdict == NeedsRevision && judge(n).issues > 0
  {
    var n := StoryRounds(judge);
    ScriptCount(n);
    CountNext(Script(n), Prompt(Fixer));
    assert Decides(judge(n)) ==> StoryScript(judge) == Script(n);
  }

  /** JUDGE would approve at once, but the first wait times out: the loop ends with the work still under way. */
  method TimedOutWait() returns (verdict: Verdict, iterations: nat, trace: seq<Action>)
    ensures verdict == Rejected && trace == [Prompt(Worker)] && Count(trace).outstanding == 1
  {
    var judge, throws := (n: nat) => Judgement(Approved, 0, 100), (k: nat) => k == 1;
    var script := StoryScript(judge);
    assert script == Script(0) + [Opening(1)] + Review();
    assert script[0] == Prompt(Worker) && script[1] == Wait;
    assert throws(1) && !Quiet(throws, |script|);
    verdict, iterations, trace := ExecuteStory(judge, throws);
    assert trace == script[..1] == [Prompt(Worker)];
  }

  // ---- ANALYST, JUDGE, SPY, FIX ----

  /** The answers of one analysis: how many stories each round's output holds, if it can be parsed, and each
      judgement. */
  datatype Analysis = Analysis(parsed: nat -> Option<nat>, judge: nat -> Judgement)

  /** The stories at hand after round n: an output that cannot be parsed leaves the earlier ones. */
  function StoriesAfter(a: Analysis, n: nat): nat {
    if n == 0 then 0 else if a.parsed(n).Some? then a.parsed(n).value else StoriesAfter(a, n - 1)
  }

  /** Round n ends the analysis well: on approval, or with no issue listed, a story at hand and half the score. */
  predicate Accepts(a: Analysis, n: nat) {
    a.judge(n).verdict == Approved || (a.judge(n).issues == 0 && StoriesAfter(a, n) > 0 && a.judge(n).score >= 50)
  }

  /** Round k is the last up to round n whose output can be parsed. */
  ghost predicate LastParsed(a: Analysis, n: nat, k: nat) {
    1 <= k <= n && a.parsed(k).Some? && forall j :: k < j <= n ==> a.parsed(j).None?
  }

  /** The stories at hand are those of the last output that could be parsed, and none before the first. */
  lemma {:induction false} StoriesAtHand(a: Analysis, n: nat)
    ensures forall k :: LastParsed(a, n, k) ==> StoriesAfter(a, n) == a.parsed(k).value
    ensures (forall j :: 1 <= j <= n ==> a.parsed(j).None?) ==> StoriesAfter(a, n) == 0
    ensures StoriesAfter(a, n) > 0 <==> exists k :: LastParsed(a, n, k) && a.parsed(k).value > 0
  {
    if n > 0 {
      StoriesAtHand(a, n - 1);
      if a.parsed(n).Some? {
        assert LastParsed(a, n, n);
      } else {
        assert forall k :: LastParsed(a, n, k) <==> LastParsed(a, n - 1, k);
      }
    }
  }

  /** Round n is good enough: approved, or with no issue listed, a score of at least 50, and stories at hand. */
  ghost predicate GoodRound(a: Analysis, n: nat) {
    || a.judge(n).verdict == Approved
    || (a.judge(n).issues == 0 && a.judge(n).score >= 50 && exists k :: LastParsed(a, n, k) && a.parsed(k).value > 0)
  }

  lemma AcceptsGoodRounds(a: Analysis, n: nat)
    ensures Accepts(a, n) <==> GoodRound(a, n)
  {
    StoriesAtHand(a, n);
  }

  /** The analysis takes as many rounds as it needs for a good one, and three if none is good. */
  lemma AnalysisRoundsExact(a: Analysis, approved: bool)
    requires approved <==> Accepts(a, AnalysisRounds(a))
    ensures approved <==> exists n :: 1 <= n <= 3 && GoodRound(a, n)
    ensures forall n :: 1 <= n < AnalysisRounds(a) ==> !GoodRound(a, n)
    ensures !approved ==> AnalysisRounds(a) == 3
  {
    AcceptsGoodRounds(a, 1);
    AcceptsGoodRounds(a, 2);
    AcceptsGoodRounds(a, 3);
  }

  function AnalysisRounds(a: Analysis): (n: nat)
    ensures 1 <= n <= MAX_ITERATIONS
    ensures n < MAX_ITERATIONS ==> Accepts(a, n)
    ensures forall k :: 1 <= k < n ==> !Accepts(a, k)
  {
    if Accepts(a, 1) then 1 else if Accepts(a, 2) then 2 else 3
  }

  /** The last round asks for a fix nobody waits for. */
  predicate AsksInVain(a: Analysis) {
    AnalysisRounds(a) == MAX_ITERATIONS && a.judge(MAX_ITERATIONS).verdict != Approved &&
    a.judge(MAX_ITERATIONS).issues > 0
  }

  function AnalysisScript(a: Analysis): seq<Action> {
    Script(AnalysisRounds(a)) + if AsksInVain(a) then [Prompt(Fixer)] else []
  }

  /** The session of one analysis: at most three rounds, in which every wait consumes the one outstanding prompt; an
      exception leaves the phase. */
  method ExecuteAnalysis(a: Analysis, throws: nat -> bool)
    returns (ok: bool, approved: bool, stories: nat, iterations: nat, trace: seq<Action>)
    ensures trace == AnalysisTrace(a, throws) && Count(trace).disciplined
    ensures Count(trace).outstanding == if AnalysisLeavesPrompt(a, throws) then 1 else 0
    ensures ok <==> trace == AnalysisScript(a)
    ensures ok ==> iterations == AnalysisRounds(a) && stories == StoriesAfter(a, iterations)
                   && (approved <==> Accepts(a, iterations))
    ensures InOrder(trace) && Count(trace).outstanding == |trace| % 2
    ensures ok ==> |trace| == 6 * iterations + if !approved && a.judge(3).issues > 0 then 1 else 0
    ensures ok ==> (approved <==> exists n :: 1 <= n <= 3 && GoodRound(a, n))
    ensures ok ==> 1 <= iterations <= 3 && (approved <==> GoodRound(a, iterations)) && (!approved ==> iterations == 3)
                   && forall n :: 1 <= n < iterations ==> !GoodRound(a, n)
  {
    ok, approved, stories, iterations, trace := AnalysisLoop(a, throws);
    if ok {
      AnalysisRoundsExact(a, approved);
      AcceptsGoodRounds(a, iterations);
    }
    AnalysisInOrder(a);
    OutstandingIsParity(trace);
    assert trace == AnalysisScript(a)[..|trace|];
    AnalysisDiscipline(a, throws);
  }

  method AnalysisLoop(a: Analysis, throws: nat -> bool)
    returns (ok: bool, approved: bool, stories: nat, iterations: nat, trace: seq<Action>)
    ensures trace <= AnalysisScript(a) && |trace| == FirstThrow(throws, |AnalysisScript(a)|)
    ensures ok <==> trace == AnalysisScript(a)
    ensures ok ==> iterations == AnalysisRounds(a) && stories == StoriesAfter(a, iterations) &&
                   (approved <==> Accepts(a, iterations))
  {
    ok, approved, stories, iterations, trace := true, false, 0, 0, [];
    while !approved && iterations < MAX_ITERATIONS
      invariant ok && iterations <= AnalysisRounds(a) && stories == StoriesAfter(a, iterations)
      invariant iterations > 0 ==> (approved <==> Accepts(a, iterations))
      invariant approved ==> iterations == AnalysisRounds(a)
      invariant trace == Script(iterations) + if AwaitsFix(a, iterations) then [Prompt(Fixer)] else []
      invariant Quiet(throws, |trace|)
      decreases MAX_ITERATIONS - iterations
    {
      iterations := iterations + 1;
      AnalysisExtends(a, iterations);
      ok, trace := ReviewRound(iterations, throws, trace);
      if !ok {
        return;
      }
      var verdict := a.judge(iterations);
      if a.parsed(iterations).Some? {
        stories := a.parsed(iterations).value;
      }
      if verdict.verdict == Approved {
        approved := true;
      } else if verdict.issues > 0 {
        ok, trace := Perform([Prompt(Fixer)], throws, trace);
        if !ok {
          return;
        }
      } else if stories > 0 && verdict.score >= 50 {
        approved := true;
      } else if iterations < MAX_ITERATIONS {
        ok, trace := Perform([Prompt(Fixer)], throws, trace);
        if !ok {
          return;
        }
      }
    }
  }

  lemma AnalysisInOrder(a: Analysis)
    ensures InOrder(AnalysisScript(a))
    ensures |AnalysisScript(a)| == 6 * AnalysisRounds(a) + if AsksInVain(a) then 1 else 0
  {
    ScriptInOrder(AnalysisRounds(a));
    FixInOrder(AnalysisRounds(a));
    assert !AsksInVain(a) ==> AnalysisScript(a) == Script(AnalysisRounds(a));
  }

  /** A fix has been asked for at the end of round n. */
  predicate AwaitsFix(a: Analysis, n: nat) {
    n > 0 && !Accepts(a, n) && (a.judge(n).issues > 0 || n < MAX_ITERATIONS)
  }

  lemma AnalysisExtends(a: Analysis, n: nat)
    requires 1 <= n <= AnalysisRounds(a)
    ensures Script(n) <= AnalysisScript(a)
    ensures AwaitsFix(a, n) ==> Script(n) + [Prompt(Fixer)] <= AnalysisScript(a)
  {
    var r := AnalysisRounds(a);
    if n < r {
      ScriptGrows(n, r);
    }
  }

  /** The analysis loop leaves a prompt nobody waits for: the call that threw was a wait, or nothing threw, three rounds
      passed without acceptance, and the last judgement is not an approval and lists issues. Here a rejection is no
      exception. */
  predicate AnalysisLeavesPrompt(a: Analysis, throws: nat -> bool) {
    var script := AnalysisScript(a);
    var k := FirstThrow(throws, |script|);
    if k < |script| then script[k].Wait? else AsksInVain(a)
  }

  function AnalysisTrace(a: Analysis, throws: nat -> bool): seq<Action> {
    AnalysisScript(a)[..FirstThrow(throws, |AnalysisScript(a)|)]
  }

  /** The discipline of every run of the analysis loop, whatever throws. */
  lemma AnalysisDiscipline(a: Analysis, throws: nat -> bool)
    ensures var t := Count(AnalysisTrace(a, throws));
            t.disciplined && t.outstanding == if AnalysisLeavesPrompt(a, throws) then 1 else 0
    ensures Count(AnalysisScript(a)).judges == Count(AnalysisScript(a)).spies == AnalysisRounds(a)
    ensures Quiet(throws, |AnalysisScript(a)|) ==> AnalysisTrace(a, throws) == AnalysisScript(a)
  {
    var script := AnalysisScript(a);
    var k := FirstThrow(throws, |script|);
    AnalysisScriptCount(a);
    DisciplinedPrefix(script, k);
    if k < |script| {
      CutOff(script, k);
    } else {
      assert script[..k] == script;
    }
  }

  lemma AnalysisScriptCount(a: Analysis)
    ensures var t := Count(AnalysisScript(a));
            && t.disciplined && t.judges == t.spies == AnalysisRounds(a)
            && t.outstanding == if AsksInVain(a) then 1 else 0
  {
    var n := AnalysisRounds(a);
    ScriptCount(n);
    CountNext(Script(n), Prompt(Fixer));
    assert !AsksInVain(a) ==> AnalysisScript(a) == Script(n);
  }

  /** Unlike the story loop, which stops at once and leaves nothing outstanding, the analysis answers three rejections
      that list issues with three requests for a fix, and nobody waits for the last. */
  lemma RejectionLeavesPrompt(a: Analysis)
    requires forall n :: 1 <= n <= MAX_ITERATIONS ==> a.judge(n).verdict == Rejected && a.judge(n).issues > 0
    ensures Count(AnalysisScript(a)).outstanding == 1 && AnalysisRounds(a) == 3
    ensures Count(StoryScript(a.judge)).outstanding == 0 && StoryRounds(a.judge) == 1
  {
    RejectedAnalysis(a);
    AnalysisScriptCount(a);
    StoryScriptCount(a.judge);
  }

  lemma RejectedAnalysis(a: Analysis)
    requires forall n :: 1 <= n <= MAX_ITERATIONS ==> a.judge(n).verdict == Rejected && a.judge(n).issues > 0
    ensures AnalysisRounds(a) == 3 && AsksInVain(a) && StoryRounds(a.judge) == 1 && StoryVerdict(a.judge) == Rejected
  {
    assert !Accepts(a, 1) && !Accepts(a, 2);
  }
}

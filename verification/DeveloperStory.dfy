/** One story of the Developer phase: its session, then build checks, approval rounds, and a commit or a rollback in
    every repository (src/orchestration/phases/DeveloperPhaseV2.ts). What agents, builds and the user do is
    arbitrary. */
module DeveloperStory {
  import opened PromptLoops
  import opened Repositories

  const MAX_BUILD_ATTEMPTS := 3
  const MAX_APPROVAL_ATTEMPTS := 5

  datatype Answer = Approve | Reject | RequestChanges(feedback: bool) | NoAnswer

  /** Everything the phase does not decide itself while it carries out one story: what JUDGE says and which call of the
      session throws, whether the k-th build passes, what the user answers the k-th time and whether the exchange that
      follows throws, and what is written to each repository in the m-th moment in which the phase awaits something. */
  datatype StoryRun = StoryRun(
    judge: nat -> Judgement,
    throws: nat -> bool,
    builds: nat -> bool,
    answers: nat -> Answer,
    feedbackThrows: nat -> bool,
    writes: nat -> seq<seq<nat>>)

  // ---- What decides over a story ----

  function SessionVerdict(run: StoryRun): Verdict {
    if SessionMoments(run) == SessionEnd(run) then StoryVerdict(run.judge) else Rejected
  }

  predicate BuildsPass(run: StoryRun) {
    run.builds(1) || run.builds(2) || run.builds(3)
  }

  /** The user approves in round k or, after feedback that was carried out, in a later one. */
  predicate UserApproves(run: StoryRun, k: nat)
    decreases MAX_APPROVAL_ATTEMPTS - k
  {
    k <= MAX_APPROVAL_ATTEMPTS &&
    match run.answers(k)
    case Approve => true
    case RequestChanges(feedback) => feedback && !run.feedbackThrows(k) && UserApproves(run, k + 1)
    case _ => false
  }

  // ---- How long a story takes ----

  /** The moments of a session that nothing throws out of: one per call, and its closing. */
  function SessionEnd(run: StoryRun): nat {
    |StoryScript(run.judge)| + 1
  }

  /** The moments of any session: it closes after the first call that throws. */
  function SessionMoments(run: StoryRun): nat {
    FirstThrow(run.throws, |StoryScript(run.judge)|) + 1
  }

  /** A build takes one moment, and asking for a fix and waiting for it two more. */
  function BuildMoments(run: StoryRun): nat {
    if run.builds(1) then 1 else if run.builds(2) then 4 else 7
  }

  /** The moments of the approval rounds from round k on: one for an answer, and six for the three exchanges that follow
      feedback. */
  function ApprovalMoments(run: StoryRun, k: nat): nat
    decreases MAX_APPROVAL_ATTEMPTS - k
  {
    if k > MAX_APPROVAL_ATTEMPTS then 0
    else if run.answers(k) != RequestChanges(true) then 1
    else if run.feedbackThrows(k) then 7
    else 7 + ApprovalMoments(run, k + 1)
  }

  /** The moment in which the builds of a story that changed something are over. */
  function BuildEnd(run: StoryRun): nat {
    SessionEnd(run) + BuildMoments(run)
  }

  /** The moment in which such a story is committed or rolled back. */
  function StoryEnd(run: StoryRun, autoApprove: bool): nat {
    BuildEnd(run) + if autoApprove then 0 else ApprovalMoments(run, 1)
  }

  // ---- Writing ----

  /** The repositories after what is written in the moments from a up to b. */
  function Written(repos: seq<Repo>, run: StoryRun, i: nat, a: nat, b: nat): (now: seq<Repo>)
    ensures |now| == |repos|
  {
    if b <= a then repos else Apply(Written(repos, run, i, a, b - 1), Wrote(i, run.writes(b - 1)))
  }

  /** All that is written to repository r in those moments. */
  function Texts(run: StoryRun, r: nat, a: nat, b: nat): seq<nat> {
    if b <= a then [] else Texts(run, r, a, b - 1) + TextsFor(Wrote(0, run.writes(b - 1)), r)
  }

  lemma {:induction false} WrittenConcat(repos: seq<Repo>, run: StoryRun, i: nat, a: nat, b: nat, c: nat)
    requires a <= b <= c
    ensures Written(repos, run, i, a, c) == Written(Written(repos, run, i, a, b), run, i, b, c)
  {
    if b < c {
      WrittenConcat(repos, run, i, a, b, c - 1);
    }
  }

  /** Writing adds to what is uncommitted, in order, and leaves the commits alone. */
  lemma {:induction false} WrittenAt(repos: seq<Repo>, run: StoryRun, i: nat, a: nat, b: nat, r: nat)
    requires r < |repos|
    ensures Written(repos, run, i, a, b)[r] == Repo(repos[r].dirty + Edits(i, Texts(run, r, a, b)), repos[r].commits)
  {
    if b <= a {
      assert repos[r].dirty + Edits(i, []) == repos[r].dirty;
    } else {
      WrittenAt(repos, run, i, a, b - 1, r);
      EditsConcat(repos[r].dirty, i, Texts(run, r, a, b - 1), TextsFor(Wrote(i, run.writes(b - 1)), r));
    }
  }

  lemma EditsConcat(dirty: seq<Edit>, i: nat, a: seq<nat>, b: seq<nat>)
    ensures dirty + Edits(i, a) + Edits(i, b) == dirty + Edits(i, a + b)
  {
  }

  lemma WritingKeepsCommits(repos: seq<Repo>, run: StoryRun, i: nat, a: nat, b: nat)
    ensures CommitCount(Written(repos, run, i, a, b)) == CommitCount(repos)
    ensures Cleaned(Written(repos, run, i, a, b)) == Cleaned(repos)
  {
    forall r | 0 <= r < |repos| ensures Written(repos, run, i, a, b)[r].commits == repos[r].commits {
      WrittenAt(repos, run, i, a, b, r);
    }
    CommitCountSame(Written(repos, run, i, a, b), repos);
  }

  /** The events of writing in the moments from a up to b. */
  function Writes(run: StoryRun, i: nat, a: nat, b: nat): seq<Event> {
    if b <= a then [] else Writes(run, i, a, b - 1) + [Wrote(i, run.writes(b - 1))]
  }

  lemma {:induction false} WritesReplay(repos: seq<Repo>, run: StoryRun, i: nat, a: nat, b: nat)
    ensures Replay(repos, Writes(run, i, a, b)) == Written(repos, run, i, a, b) && Prelude(Writes(run, i, a, b), i)
  {
    if b > a {
      WritesReplay(repos, run, i, a, b - 1);
      ReplayNext(repos, Writes(run, i, a, b - 1), Wrote(i, run.writes(b - 1)));
    }
  }

  lemma {:induction false} WritesConcat(run: StoryRun, i: nat, a: nat, b: nat, c: nat)
    requires a <= b <= c
    ensures Writes(run, i, a, c) == Writes(run, i, a, b) + Writes(run, i, b, c)
  {
    if b < c {
      WritesConcat(run, i, a, b, c - 1);
      assert Writes(run, i, a, b) + Writes(run, i, b, c - 1) + [Wrote(i, run.writes(c - 1))]
          == Writes(run, i, a, b) + (Writes(run, i, b, c - 1) + [Wrote(i, run.writes(c - 1))]);
    } else {
      assert Writes(run, i, a, b) + [] == Writes(run, i, a, b);
    }
  }

  /** Having awaited everything from moment a up to moment m. */
  ghost predicate Awaited(start: seq<Repo>, now: seq<Repo>, events: seq<Event>, run: StoryRun, i: nat, a: nat, m: nat) {
    now == Written(start, run, i, a, m) && events == Writes(run, i, a, m)
  }

  lemma AwaitedThen(start: seq<Repo>, mid: seq<Repo>, now: seq<Repo>, first: seq<Event>, second: seq<Event>,
                    run: StoryRun, i: nat, a: nat, b: nat, c: nat)
    requires a <= b <= c && Awaited(start, mid, first, run, i, a, b) && Awaited(mid, now, second, run, i, b, c)
    ensures Awaited(start, now, first + second, run, i, a, c)
  {
    WrittenConcat(start, run, i, a, b, c);
    WritesConcat(run, i, a, b, c);
  }

  /** Awaiting n things from moment m on, during which agents, builds and the user may write. */
  method Await(repos: seq<Repo>, i: nat, run: StoryRun, m: nat, n: nat)
    returns (now: seq<Repo>, ghost events: seq<Event>)
    ensures now == Written(repos, run, i, m, m + n)
    ensures events == Writes(run, i, m, m + n)
  {
    now, events := repos, [];
    for k := 0 to n
      invariant Awaited(repos, now, events, run, i, m, m + k)
    {
      var e := Wrote(i, run.writes(m + k));
      now, events := Apply(now, e), events + [e];
    }
  }

  // ---- The loops of one story ----

  /** At most three builds; each failure but the last asks for a fix, the last rolls everything back. */
  method BuildLoop(repos: seq<Repo>, i: nat, run: StoryRun, from: nat)
    returns (now: seq<Repo>, passed: bool, ghost events: seq<Event>)
    ensures passed == BuildsPass(run)
    ensures now == if passed then Written(repos, run, i, from, from + BuildMoments(run)) else Cleaned(repos)
    ensures events == BuildEvents(repos, run, i, from)
  {
    now, passed, events := BuildAttempts(repos, i, run, from);
    if !passed {
      ghost var discards;
      now, discards := DiscardAll(now);
      events := events + discards;
      WritingKeepsCommits(repos, run, i, from, from + BuildMoments(run));
    }
  }

  /** The events of the builds. */
  function BuildEvents(repos: seq<Repo>, run: StoryRun, i: nat, from: nat): seq<Event> {
    var end := from + BuildMoments(run);
    Writes(run, i, from, end)
    + if BuildsPass(run) then [] else DiscardEvents(Written(repos, run, i, from, end), |repos|)
  }

  method BuildAttempts(repos: seq<Repo>, i: nat, run: StoryRun, from: nat)
    returns (now: seq<Repo>, passed: bool, ghost events: seq<Event>)
    ensures passed == BuildsPass(run)
    ensures Awaited(repos, now, events, run, i, from, from + BuildMoments(run))
  {
    var attempts, m := 0, from;
    now, passed, events := repos, false, [];
    while !passed && attempts < MAX_BUILD_ATTEMPTS
      invariant attempts <= MAX_BUILD_ATTEMPTS && m >= from
      invariant passed ==> BuildsPass(run) && m == from + BuildMoments(run)
      invariant !passed ==> m == from + if attempts == MAX_BUILD_ATTEMPTS then 7 else 3 * attempts
      invariant !passed ==> forall k :: 1 <= k <= attempts ==> !run.builds(k)
      invariant Awaited(repos, now, events, run, i, from, m)
      decreases MAX_BUILD_ATTEMPTS - attempts
    {
      attempts := attempts + 1;
      passed := run.builds(attempts);
      var n := if !passed && attempts < MAX_BUILD_ATTEMPTS then 3 else 1;
      now, events := AwaitMore(repos, now, i, run, from, m, n, events);
      m := m + n;
    }
  }

  method AwaitMore(ghost start: seq<Repo>, repos: seq<Repo>, i: nat, run: StoryRun, ghost a: nat, m: nat, n: nat,
                   ghost past: seq<Event>)
    returns (now: seq<Repo>, ghost events: seq<Event>)
    requires a <= m && Awaited(start, repos, past, run, i, a, m)
    ensures now == Written(repos, run, i, m, m + n)
    ensures Awaited(start, now, events, run, i, a, m + n)
  {
    now, events := Await(repos, i, run, m, n);
    AwaitedThen(start, repos, now, past, events, run, i, a, m, m + n);
    events := past + events;
  }

  /** At most five rounds with the user; feedback goes to the agents, and any exception rejects. */
  method ApprovalLoop(repos: seq<Repo>, i: nat, run: StoryRun, from: nat)
    returns (now: seq<Repo>, approved: bool, ghost events: seq<Event>)
    ensures approved == UserApproves(run, 1)
    ensures Awaited(repos, now, events, run, i, from, from + ApprovalMoments(run, 1))
  {
    var attempts, m := 0, from;
    now, approved, events := repos, false, [];
    while attempts < MAX_APPROVAL_ATTEMPTS
      invariant attempts <= MAX_APPROVAL_ATTEMPTS && m >= from && !approved
      invariant UserApproves(run, 1) == UserApproves(run, attempts + 1)
      invariant m + ApprovalMoments(run, attempts + 1) == from + ApprovalMoments(run, 1)
      invariant Awaited(repos, now, events, run, i, from, m)
    {
      var goOn;
      attempts := attempts + 1;
      now, approved, goOn, m, events := ApprovalRound(repos, now, i, run, attempts, from, m, events);
      if !goOn {
        return;
      }
    }
  }

  /** One round: the user's answer and, after feedback, the exchanges with the agents. */
  method ApprovalRound(ghost start: seq<Repo>, repos: seq<Repo>, i: nat, run: StoryRun, k: nat, ghost a: nat, m: nat,
                       ghost past: seq<Event>)
    returns (now: seq<Repo>, approved: bool, goOn: bool, end: nat, ghost events: seq<Event>)
    requires 1 <= k <= MAX_APPROVAL_ATTEMPTS && a <= m && Awaited(start, repos, past, run, i, a, m)
    ensures UserApproves(run, k) == if goOn then UserApproves(run, k + 1) else approved
    ensures m + ApprovalMoments(run, k) == end + if goOn then ApprovalMoments(run, k + 1) else 0
    ensures end >= m && (goOn ==> !approved)
    ensures Awaited(start, now, events, run, i, a, end)
  {
    var answer := run.answers(k);
    var n := if answer.RequestChanges? && answer.feedback then 7 else 1;
    now, events := AwaitMore(start, repos, i, run, a, m, n, past);
    approved, goOn, end := false, false, m + n;
    match answer {
      case Approve =>
        approved := true;
      case RequestChanges(feedback) =>
        goOn := feedback && !run.feedbackThrows(k);
      case _ =>
    }
  }

  // ---- One story ----

  datatype StoryResult = StoryResult(story: nat, verdict: Verdict)

  /** The repositories when a session that nothing throws out of closes. */
  function AfterSession(repos: seq<Repo>, run: StoryRun, i: nat): seq<Repo> {
    Written(repos, run, i, 0, SessionEnd(run))
  }

  /** JUDGE approved the story and there is something to build, to ask about and to commit. */
  predicate Proposed(repos: seq<Repo>, run: StoryRun, i: nat) {
    SessionVerdict(run) == Approved && !Clean(AfterSession(repos, run, i))
  }

  /** The three builds of a proposed story failed: it is rolled back and reported, and reported again after the approval
      rounds that follow all the same. */
  predicate BuildRejected(repos: seq<Repo>, run: StoryRun, i: nat) {
    Proposed(repos, run, i) && !BuildsPass(run)
  }

  /** The verdict a story ends with. */
  function FinalVerdict(repos: seq<Repo>, run: StoryRun, i: nat, autoApprove: bool): Verdict {
    if !Proposed(repos, run, i) then SessionVerdict(run)
    else if BuildsPass(run) && (autoApprove || UserApproves(run, 1)) then Approved
    else Rejected
  }

  /** What is in the repositories when a proposed story is committed or rolled back: what it found and everything
      written since, or after three failed builds only what was written since these. */
  function Material(repos: seq<Repo>, run: StoryRun, i: nat, autoApprove: bool): seq<Repo> {
    if BuildsPass(run) then Written(repos, run, i, 0, StoryEnd(run, autoApprove))
    else Written(Cleaned(repos), run, i, BuildEnd(run), StoryEnd(run, autoApprove))
  }

  /** One commit of everything in every changed repository, or a rollback of all. */
  function Concluded(repos: seq<Repo>, i: nat, kept: bool): seq<Repo> {
    if kept then CommittedAll(repos, i) else Cleaned(repos)
  }

  /** The repositories after a story. */
  function StoryOutcome(repos: seq<Repo>, run: StoryRun, i: nat, autoApprove: bool): (now: seq<Repo>)
    ensures |now| == |repos| && Clean(now)
  {
    if !Proposed(repos, run, i) then Cleaned(repos)
    else Concluded(Material(repos, run, i, autoApprove), i, autoApprove || UserApproves(run, 1))
  }

  function ConclusionEvents(repos: seq<Repo>, i: nat, kept: bool): seq<Event> {
    if kept then CommitEvents(repos, i, |repos|) else DiscardEvents(repos, |repos|)
  }

  /** Everything that happens to the repositories during a story, in order. */
  function StoryEvents(repos: seq<Repo>, run: StoryRun, i: nat, autoApprove: bool): seq<Event> {
    var worked := Written(repos, run, i, 0, SessionMoments(run));
    Writes(run, i, 0, SessionMoments(run)) +
    if SessionVerdict(run) != Approved then DiscardEvents(worked, |worked|)
    else if Clean(worked) then []
    else ProposalEvents(repos, run, i, autoApprove)
  }

  /** ... and of that what follows the session of a proposed story. */
  function ProposalEvents(repos: seq<Repo>, run: StoryRun, i: nat, autoApprove: bool): seq<Event> {
    BuildEvents(AfterSession(repos, run, i), run, i, SessionEnd(run))
    + Writes(run, i, BuildEnd(run), StoryEnd(run, autoApprove))
    + ConclusionEvents(Material(repos, run, i, autoApprove), i, autoApprove || UserApproves(run, 1))
  }

  lemma ConclusionReplay(repos: seq<Repo>, i: nat, kept: bool)
    ensures Replay(repos, ConclusionEvents(repos, i, kept)) == Concluded(repos, i, kept)
    ensures Body(ConclusionEvents(repos, i, kept), i)
  {
    if kept {
      CommitsReplay(repos, i);
      CommitEventsBody(repos, i, |repos|);
    } else {
      DiscardsReplay(repos, i);
      PreludeIsBody(DiscardEvents(repos, |repos|), i);
    }
  }

  lemma BuildEventsReplay(repos: seq<Repo>, run: StoryRun, i: nat, from: nat)
    ensures Prelude(BuildEvents(repos, run, i, from), i)
    ensures Replay(repos, BuildEvents(repos, run, i, from)) ==
            if BuildsPass(run) then Written(repos, run, i, from, from + BuildMoments(run)) else Cleaned(repos)
  {
    var end := from + BuildMoments(run);
    WritesReplay(repos, run, i, from, end);
    if BuildsPass(run) {
      assert Writes(run, i, from, end) + [] == Writes(run, i, from, end);
    } else {
      WritingKeepsCommits(repos, run, i, from, end);
      ThenDiscard(repos, Writes(run, i, from, end), Written(repos, run, i, from, end), i);
    }
  }

  lemma ThenDiscard(repos: seq<Repo>, events: seq<Event>, worked: seq<Repo>, i: nat)
    requires worked == Replay(repos, events) && Prelude(events, i)
    ensures Replay(repos, events + DiscardEvents(worked, |worked|)) == Cleaned(worked)
    ensures Prelude(events + DiscardEvents(worked, |worked|), i)
  {
    DiscardsReplay(worked, i);
    ReplayConcat(repos, events, DiscardEvents(worked, |worked|));
    PreludeConcat(events, DiscardEvents(worked, |worked|), i);
  }

  lemma BuiltIs(repos: seq<Repo>, run: StoryRun, i: nat)
    ensures Replay(AfterSession(repos, run, i), BuildEvents(AfterSession(repos, run, i), run, i, SessionEnd(run)))
            == Built(repos, run, i)
  {
    BuildEventsReplay(AfterSession(repos, run, i), run, i, SessionEnd(run));
    WrittenConcat(repos, run, i, 0, SessionEnd(run), BuildEnd(run));
    WritingKeepsCommits(repos, run, i, 0, SessionEnd(run));
  }

  lemma ProposalReplay(repos: seq<Repo>, run: StoryRun, i: nat, autoApprove: bool)
    ensures Body(ProposalEvents(repos, run, i, autoApprove), i)
    ensures Replay(AfterSession(repos, run, i), ProposalEvents(repos, run, i, autoApprove)) ==
            Concluded(Material(repos, run, i, autoApprove), i, autoApprove || UserApproves(run, 1))
  {
    var worked, material := AfterSession(repos, run, i), Material(repos, run, i, autoApprove);
    var kept := autoApprove || UserApproves(run, 1);
    var builds := BuildEvents(worked, run, i, SessionEnd(run));
    var rounds := Writes(run, i, BuildEnd(run), StoryEnd(run, autoApprove));
    BuiltIs(repos, run, i);
    BuildEventsReplay(worked, run, i, SessionEnd(run));
    MaterialIsBuilt(repos, run, i, autoApprove);
    WritesReplay(Built(repos, run, i), run, i, BuildEnd(run), StoryEnd(run, autoApprove));
    ReplayConcat(worked, builds, rounds);
    ConclusionReplay(material, i, kept);
    ReplayConcat(worked, builds + rounds, ConclusionEvents(material, i, kept));
    PreludeConcat(builds, rounds, i);
    PreludeThenBody(builds + rounds, ConclusionEvents(material, i, kept), i);
  }

  lemma PreludeConcat(a: seq<Event>, b: seq<Event>, i: nat)
    requires Prelude(a, i) && Prelude(b, i)
    ensures Prelude(a + b, i)
  {
  }

  /** Those events are work on the story, and they leave what the story leaves. */
  lemma StoryReplay(repos: seq<Repo>, run: StoryRun, i: nat, autoApprove: bool)
    ensures Body(StoryEvents(repos, run, i, autoApprove), i)
    ensures Replay(repos, StoryEvents(repos, run, i, autoApprove)) == StoryOutcome(repos, run, i, autoApprove)
  {
    var m := SessionMoments(run);
    var writes, worked := Writes(run, i, 0, m), Written(repos, run, i, 0, m);
    WritesReplay(repos, run, i, 0, m);
    WritingKeepsCommits(repos, run, i, 0, m);
    if SessionVerdict(run) != Approved {
      ThenDiscard(repos, writes, worked, i);
      PreludeIsBody(writes + DiscardEvents(worked, |worked|), i);
    } else if Clean(worked) {
      assert writes + [] == writes && worked == Cleaned(worked);
      PreludeIsBody(writes, i);
    } else {
      ProposalReplay(repos, run, i, autoApprove);
      ReplayConcat(repos, writes, ProposalEvents(repos, run, i, autoApprove));
      PreludeThenBody(writes, ProposalEvents(repos, run, i, autoApprove), i);
    }
  }

  /** One story from its session to the commit or the rollback. */
  method DevelopStory(repos: seq<Repo>, i: nat, run: StoryRun, autoApprove: bool)
    returns (now: seq<Repo>, result: StoryResult, twice: bool, commits: nat, ghost events: seq<Event>)
    ensures result == StoryResult(i, FinalVerdict(repos, run, i, autoApprove)) && twice == BuildRejected(repos, run, i)
    ensures now == StoryOutcome(repos, run, i, autoApprove) && commits == CommitCount(now) - CommitCount(repos)
    ensures events == StoryEvents(repos, run, i, autoApprove)
    ensures result.verdict == Approved <==> EndsWell(Clean(repos), |repos|, run, autoApprove)
    ensures twice <==> JudgeApproves(run) && Changes(Clean(repos), |repos|, run) && !SomeBuildPasses(run)
    ensures result.verdict == Approved ==>
              LeavesWork(repos, now, run, i, autoApprove, Changes(Clean(repos), |repos|, run))
    ensures result.verdict != Approved && !twice ==> LeavesWork(repos, now, run, i, autoApprove, false)
  {
    now, result, twice, commits, events := CarryThrough(repos, i, run, autoApprove);
    ApprovedIff(repos, run, i, autoApprove);
    WorkInOutcome(repos, run, i, autoApprove);
  }

  method CarryThrough(repos: seq<Repo>, i: nat, run: StoryRun, autoApprove: bool)
    returns (now: seq<Repo>, result: StoryResult, twice: bool, commits: nat, ghost events: seq<Event>)
    ensures result == StoryResult(i, FinalVerdict(repos, run, i, autoApprove)) && twice == BuildRejected(repos, run, i)
    ensures now == StoryOutcome(repos, run, i, autoApprove) && commits == CommitCount(now) - CommitCount(repos)
    ensures events == StoryEvents(repos, run, i, autoApprove)
  {
    var verdict, m;
    ghost var more: seq<Event> := [];
    now, verdict, m, events := Session(repos, i, run);
    twice, commits := false, 0;
    WritingKeepsCommits(repos, run, i, 0, m);
    if verdict == Approved {
      var changed := AnyChanges(now);
      if changed {
        now, verdict, twice, commits, more := VerifyAndApprove(repos, now, i, run, autoApprove);
      } else {
        assert now == Cleaned(now);
      }
    } else {
      now, more := DiscardAll(now);
    }
    events := events + more;
    result := StoryResult(i, verdict);
  }

  /** The prompts and waits of a session, and how many moments they take. */
  method Converse(run: StoryRun) returns (verdict: Verdict, m: nat)
    ensures verdict == SessionVerdict(run) && m == SessionMoments(run)
  {
    var iterations, trace;
    verdict, iterations, trace := ExecuteStory(run.judge, run.throws);
    m := |trace| + 1;
  }

  /** The session of a story; what it writes, it writes while one of its calls is awaited. */
  method Session(repos: seq<Repo>, i: nat, run: StoryRun)
    returns (now: seq<Repo>, verdict: Verdict, m: nat, ghost events: seq<Event>)
    ensures verdict == SessionVerdict(run) && m == SessionMoments(run)
    ensures now == Written(repos, run, i, 0, m) && events == Writes(run, i, 0, m)
  {
    verdict, m := Converse(run);
    now, events := Await(repos, i, run, 0, m);
  }

  /** Builds, approval, and the commit or rollback of a proposed story. */
  method VerifyAndApprove(repos: seq<Repo>, worked: seq<Repo>, i: nat, run: StoryRun, autoApprove: bool)
    returns (now: seq<Repo>, verdict: Verdict, twice: bool, commits: nat, ghost events: seq<Event>)
    requires worked == AfterSession(repos, run, i)
    ensures twice == !BuildsPass(run)
    ensures now == Concluded(Material(repos, run, i, autoApprove), i, autoApprove || UserApproves(run, 1))
    ensures verdict == if !twice && (autoApprove || UserApproves(run, 1)) then Approved else Rejected
    ensures commits == CommitCount(now) - CommitCount(repos)
    ensures events == ProposalEvents(repos, run, i, autoApprove)
  {
    var approved;
    ghost var builds, rounds, last;
    now, twice, builds := Verify(repos, worked, i, run);
    now, approved, rounds := Ask(repos, now, i, run, autoApprove);
    MaterialKeepsCommits(repos, run, i, autoApprove);
    now, commits, last := Conclude(now, i, approved);
    events := builds + rounds + last;
    verdict := if twice || !approved then Rejected else Approved;
  }

  /** The repositories after the builds of a proposed story. */
  function Built(repos: seq<Repo>, run: StoryRun, i: nat): seq<Repo> {
    if BuildsPass(run) then Written(repos, run, i, 0, BuildEnd(run)) else Cleaned(repos)
  }

  lemma MaterialIsBuilt(repos: seq<Repo>, run: StoryRun, i: nat, autoApprove: bool)
    ensures Material(repos, run, i, autoApprove)
            == Written(Built(repos, run, i), run, i, BuildEnd(run), StoryEnd(run, autoApprove))
  {
    WrittenConcat(repos, run, i, 0, BuildEnd(run), StoryEnd(run, autoApprove));
  }

  lemma MaterialKeepsCommits(repos: seq<Repo>, run: StoryRun, i: nat, autoApprove: bool)
    ensures |Material(repos, run, i, autoApprove)| == |repos|
    ensures CommitCount(Material(repos, run, i, autoApprove)) == CommitCount(repos)
    ensures Cleaned(Material(repos, run, i, autoApprove)) == Cleaned(repos)
  {
    WritingKeepsCommits(repos, run, i, 0, StoryEnd(run, autoApprove));
    WritingKeepsCommits(Cleaned(repos), run, i, BuildEnd(run), StoryEnd(run, autoApprove));
    CommitCountSame(Cleaned(repos), repos);
    assert Cleaned(Cleaned(repos)) == Cleaned(repos);
  }

  /** The build checks of a story, after its session. */
  method Verify(repos: seq<Repo>, worked: seq<Repo>, i: nat, run: StoryRun)
    returns (now: seq<Repo>, twice: bool, ghost events: seq<Event>)
    requires worked == AfterSession(repos, run, i)
    ensures twice == !BuildsPass(run) && now == Built(repos, run, i)
    ensures events == BuildEvents(worked, run, i, SessionEnd(run))
  {
    var passed;
    now, passed, events := BuildLoop(worked, i, run, SessionEnd(run));
    WrittenConcat(repos, run, i, 0, SessionEnd(run), BuildEnd(run));
    WritingKeepsCommits(repos, run, i, 0, SessionEnd(run));
    twice := !passed;
  }

  /** The approval rounds, if the task is not approved in advance. */
  method Ask(repos: seq<Repo>, built: seq<Repo>, i: nat, run: StoryRun, autoApprove: bool)
    returns (now: seq<Repo>, approved: bool, ghost events: seq<Event>)
    requires built == Built(repos, run, i)
    ensures approved == (autoApprove || UserApproves(run, 1)) && now == Material(repos, run, i, autoApprove)
    ensures events == Writes(run, i, BuildEnd(run), StoryEnd(run, autoApprove))
  {
    now, approved, events := built, autoApprove, [];
    MaterialIsBuilt(repos, run, i, autoApprove);
    if !autoApprove {
      now, approved, events := ApprovalLoop(built, i, run, BuildEnd(run));
    }
  }

  /** The commit of an approved story, or the rollback of any other, in all repositories. */
  method Conclude(repos: seq<Repo>, i: nat, approved: bool)
    returns (now: seq<Repo>, commits: nat, ghost events: seq<Event>)
    ensures now == Concluded(repos, i, approved) && commits == CommitCount(now) - CommitCount(repos)
    ensures events == ConclusionEvents(repos, i, approved)
  {
    if approved {
      now, commits, events := CommitAll(repos, i);
    } else {
      commits := 0;
      now, events := DiscardAll(repos);
    }
  }

  // ---- What a story commits ----

  /** What a story can commit to repository r. */
  function CommittableEdits(repos: seq<Repo>, run: StoryRun, i: nat, autoApprove: bool, r: nat): seq<Edit>
    requires r < |repos|
  {
    if BuildsPass(run) then repos[r].dirty + Edits(i, Texts(run, r, 0, StoryEnd(run, autoApprove)))
    else Edits(i, Texts(run, r, BuildEnd(run), StoryEnd(run, autoApprove)))
  }

  /** The commits story i adds to repository r: one of everything it found and everything written there, if JUDGE
      approved, something changed, the user approved if asked, and there is anything to commit; none otherwise. */
  function StoryCommits(repos: seq<Repo>, run: StoryRun, i: nat, autoApprove: bool, r: nat): seq<Commit>
    requires r < |repos|
  {
    var edits := CommittableEdits(repos, run, i, autoApprove, r);
    if Proposed(repos, run, i) && (autoApprove || UserApproves(run, 1)) && edits != [] then [Commit(i, edits)] else []
  }

  lemma OutcomeCommits(repos: seq<Repo>, run: StoryRun, i: nat, autoApprove: bool, r: nat)
    requires r < |repos|
    ensures StoryOutcome(repos, run, i, autoApprove)[r] ==
            Repo([], repos[r].commits + StoryCommits(repos, run, i, autoApprove, r))
  {
    WrittenAt(repos, run, i, 0, StoryEnd(run, autoApprove), r);
    WrittenAt(Cleaned(repos), run, i, BuildEnd(run), StoryEnd(run, autoApprove), r);
    var material := Material(repos, run, i, autoApprove);
    assert material[r].dirty == CommittableEdits(repos, run, i, autoApprove, r);
    assert material[r].commits == repos[r].commits;
    assert repos[r].commits + [] == repos[r].commits;
  }

  // ---- Texts and clean repositories ----

  lemma {:induction false} CommittingCounts(repos: seq<Repo>, i: nat)
    ensures CommitCount(CommittedAll(repos, i)) >= CommitCount(repos)
    ensures CommitCount(CommittedAll(repos, i)) == CommitCount(repos) <==> Clean(repos)
  {
    if repos != [] {
      CommittingCounts(repos[1..], i);
      assert CommittedAll(repos, i)[1..] == CommittedAll(repos[1..], i);
      CleanFrom(repos);
    }
  }

  lemma CleanFrom(repos: seq<Repo>)
    requires repos != []
    ensures Clean(repos) <==> repos[0].dirty == [] && Clean(repos[1..])
  {
    if repos[0].dirty == [] && Clean(repos[1..]) {
      forall r | 0 <= r < |repos| ensures repos[r].dirty == [] {
        assert r > 0 ==> repos[r] == repos[1..][r - 1];
      }
    }
  }

  /** Something is written to one of the first n repositories in the moments from a up to b. */
  predicate AnyText(run: StoryRun, n: nat, a: nat, b: nat) {
    exists r: nat :: r < n && Texts(run, r, a, b) != []
  }

  lemma WrittenFromClean(repos: seq<Repo>, run: StoryRun, i: nat, a: nat, b: nat)
    requires Clean(repos)
    ensures Clean(Written(repos, run, i, a, b)) <==> !AnyText(run, |repos|, a, b)
  {
    var now := Written(repos, run, i, a, b);
    forall r: nat | r < |repos| ensures |now[r].dirty| == |Texts(run, r, a, b)| {
      WrittenAt(repos, run, i, a, b, r);
    }
    if !Clean(now) {
      var r: nat :| r < |now| && now[r].dirty != [];
      assert Texts(run, r, a, b) != [];
    }
    if AnyText(run, |repos|, a, b) {
      var r: nat :| r < |repos| && Texts(run, r, a, b) != [];
      assert now[r].dirty != [];
    }
  }

  lemma {:induction false} NoTextAt(run: StoryRun, r: nat, b: nat, m: nat)
    requires Texts(run, r, 0, b) == [] && m < b
    ensures TextsFor(Wrote(0, run.writes(m)), r) == []
  {
    assert |Texts(run, r, 0, b)| == |Texts(run, r, 0, b - 1)| + |TextsFor(Wrote(0, run.writes(b - 1)), r)|;
    if m < b - 1 {
      NoTextAt(run, r, b - 1, m);
    }
  }

  lemma {:induction false} WritesAt(run: StoryRun, i: nat, b: nat, m: nat)
    requires m < b
    ensures |Writes(run, i, 0, b)| == b && Writes(run, i, 0, b)[m] == Wrote(i, run.writes(m))
  {
    if m < b - 1 {
      WritesAt(run, i, b - 1, m);
    } else if b > 1 {
      WritesAt(run, i, b - 1, 0);
    }
  }

  /** What writes no text changes nothing. */
  lemma NoTextIsStill(run: StoryRun, i: nat, n: nat, b: nat, m: nat)
    requires !AnyText(run, n, 0, b) && m < b
    ensures |Writes(run, i, 0, b)| == b && Still(Writes(run, i, 0, b)[m], n)
  {
    WritesAt(run, i, b, m);
    forall r: nat | r < n ensures TextsFor(Wrote(i, run.writes(m)), r) == [] {
      assert Texts(run, r, 0, b) == [];
      NoTextAt(run, r, b, m);
    }
  }

  lemma WrittenCleanIff(repos: seq<Repo>, run: StoryRun, i: nat, a: nat, b: nat)
    ensures Clean(Written(repos, run, i, a, b)) <==> Clean(repos) && !AnyText(run, |repos|, a, b)
  {
    if Clean(repos) {
      WrittenFromClean(repos, run, i, a, b);
    } else {
      var r: nat :| r < |repos| && repos[r].dirty != [];
      WrittenAt(repos, run, i, a, b, r);
      assert |Written(repos, run, i, a, b)[r].dirty| > 0;
    }
  }

  /** A story is proposed if JUDGE approves it and it finds or writes anything. */
  lemma ProposedIff(repos: seq<Repo>, run: StoryRun, i: nat)
    ensures Proposed(repos, run, i) <==>
            SessionVerdict(run) == Approved && (!Clean(repos) || AnyText(run, |repos|, 0, SessionEnd(run)))
  {
    WrittenCleanIff(repos, run, i, 0, SessionEnd(run));
  }

  // ---- Which stories are approved ----

  /** No call of the session throws, and JUDGE is content in the round that decides. */
  ghost predicate JudgeApproves(run: StoryRun) {
    && Quiet(run.throws, |StoryScript(run.judge)|)
    && exists n :: DecidedIn(run.judge, n) && Content(run.judge(n))
  }

  /** The user approves the m-th time, and from the k-th time on until then asked for changes that were carried out. */
  predicate ConsentsIn(run: StoryRun, k: nat, m: nat) {
    && k <= m <= 5 && run.answers(m) == Approve
    && forall j :: k <= j < m ==> run.answers(j) == RequestChanges(true) && !run.feedbackThrows(j)
  }

  ghost predicate UserConsents(run: StoryRun) {
    exists m :: ConsentsIn(run, 1, m)
  }

  /** The story finds something uncommitted or writes something in its session. */
  predicate Changes(clean: bool, repoCount: nat, run: StoryRun) {
    !clean || AnyText(run, repoCount, 0, SessionEnd(run))
  }

  predicate SomeBuildPasses(run: StoryRun) {
    exists k :: 1 <= k <= 3 && run.builds(k)
  }

  /** A story ends well: JUDGE approves it, and either it changes nothing or one of three builds passes and the user, if
      asked, approves. */
  ghost predicate EndsWell(clean: bool, repoCount: nat, run: StoryRun, autoApprove: bool) {
    && JudgeApproves(run)
    && (Changes(clean, repoCount, run) ==> SomeBuildPasses(run) && (autoApprove || UserConsents(run)))
  }

  lemma SessionVerdictIff(run: StoryRun)
    ensures SessionVerdict(run) == Approved <==> JudgeApproves(run)
  {
    StoryVerdictExact(run.judge);
  }

  lemma {:induction false} UserApprovesIff(run: StoryRun, k: nat)
    ensures UserApproves(run, k) <==> exists m :: ConsentsIn(run, k, m)
    decreases 5 - k
  {
    if k <= 5 {
      UserApprovesIff(run, k + 1);
      if run.answers(k) == Approve {
        assert ConsentsIn(run, k, k);
      } else if run.answers(k) == RequestChanges(true) && !run.feedbackThrows(k) {
        assert UserApproves(run, k) == UserApproves(run, k + 1);
        if m :| ConsentsIn(run, k, m) {
          assert ConsentsIn(run, k + 1, m);
        }
        var next := k + 1;
        if m :| ConsentsIn(run, next, m) {
          assert ConsentsIn(run, k, m);
        }
      } else {
        forall m: nat ensures !ConsentsIn(run, k, m) {
          assert m > k ==> k <= k < m;
        }
      }
    }
  }

  lemma BuildsPassIff(run: StoryRun)
    ensures BuildsPass(run) <==> SomeBuildPasses(run)
  {
  }

  /** A story is approved exactly if it ends well, and reported twice exactly if JUDGE approves it, it changes something
      and no build passes. */
  lemma ApprovedIff(repos: seq<Repo>, run: StoryRun, i: nat, autoApprove: bool)
    ensures FinalVerdict(repos, run, i, autoApprove) == Approved <==>
            EndsWell(Clean(repos), |repos|, run, autoApprove)
    ensures BuildRejected(repos, run, i) <==>
            JudgeApproves(run) && Changes(Clean(repos), |repos|, run) && !SomeBuildPasses(run)
  {
    ProposedIff(repos, run, i);
    SessionVerdictIff(run);
    UserApprovesIff(run, 1);
    BuildsPassIff(run);
  }

  /** One commit of these edits, if there are any. */
  function OneCommit(i: nat, edits: seq<Edit>): seq<Commit> {
    if edits == [] then [] else [Commit(i, edits)]
  }

  /** The commit of everything a story found in repository r and everything written there until it is over. */
  function AllWork(found: seq<Edit>, run: StoryRun, i: nat, autoApprove: bool, r: nat): seq<Commit> {
    OneCommit(i, found + Edits(i, Texts(run, r, 0, StoryEnd(run, autoApprove))))
  }

  ghost predicate StoryWork(repos: seq<Repo>, run: StoryRun, i: nat, autoApprove: bool, r: nat)
    requires r < |repos|
  {
    && (EndsWell(Clean(repos), |repos|, run, autoApprove) ==>
         StoryCommits(repos, run, i, autoApprove, r) ==
         Kept(repos[r].dirty, run, i, autoApprove, r, Changes(Clean(repos), |repos|, run)))
    && (!EndsWell(Clean(repos), |repos|, run, autoApprove) && !BuildRejected(repos, run, i) ==>
         StoryCommits(repos, run, i, autoApprove, r) == [])
  }

  /** A story that changes something and is approved leaves all of its work in one commit per repository; one that is
      neither approved nor reported twice leaves none. */
  lemma WorkIsCommitted(repos: seq<Repo>, run: StoryRun, i: nat, autoApprove: bool, r: nat)
    requires r < |repos|
    ensures StoryWork(repos, run, i, autoApprove, r)
  {
    ProposedIff(repos, run, i);
    SessionVerdictIff(run);
    UserApprovesIff(run, 1);
    BuildsPassIff(run);
  }

  /** Everything is clean, with no new commit or, if the work is kept, all of it in one commit per repository. */
  ghost predicate LeavesWork(repos: seq<Repo>, now: seq<Repo>, run: StoryRun, i: nat, autoApprove: bool, kept: bool) {
    && |now| == |repos|
    && forall r :: 0 <= r < |repos| ==>
         now[r] == Repo([], repos[r].commits + Kept(repos[r].dirty, run, i, autoApprove, r, kept))
  }

  function Kept(found: seq<Edit>, run: StoryRun, i: nat, autoApprove: bool, r: nat, kept: bool): seq<Commit> {
    if kept then AllWork(found, run, i, autoApprove, r) else []
  }

  lemma WorkLeft(repos: seq<Repo>, run: StoryRun, i: nat, autoApprove: bool, kept: bool)
    requires forall r :: 0 <= r < |repos| ==>
               StoryCommits(repos, run, i, autoApprove, r) == Kept(repos[r].dirty, run, i, autoApprove, r, kept)
    ensures LeavesWork(repos, StoryOutcome(repos, run, i, autoApprove), run, i, autoApprove, kept)
  {
    forall r | 0 <= r < |repos|
      ensures StoryOutcome(repos, run, i, autoApprove)[r] ==
              Repo([], repos[r].commits + Kept(repos[r].dirty, run, i, autoApprove, r, kept))
    {
      OutcomeCommits(repos, run, i, autoApprove, r);
    }
  }

  /** What a story leaves in every repository, by how it ends. */
  lemma WorkInOutcome(repos: seq<Repo>, run: StoryRun, i: nat, autoApprove: bool)
    ensures EndsWell(Clean(repos), |repos|, run, autoApprove) ==>
              LeavesWork(repos, StoryOutcome(repos, run, i, autoApprove), run, i, autoApprove,
                         Changes(Clean(repos), |repos|, run))
    ensures !EndsWell(Clean(repos), |repos|, run, autoApprove) && !BuildRejected(repos, run, i) ==>
              LeavesWork(repos, StoryOutcome(repos, run, i, autoApprove), run, i, autoApprove, false)
  {
    var well := EndsWell(Clean(repos), |repos|, run, autoApprove);
    if well || !BuildRejected(repos, run, i) {
      var kept := well && Changes(Clean(repos), |repos|, run);
      forall r | 0 <= r < |repos|
        ensures StoryCommits(repos, run, i, autoApprove, r) == Kept(repos[r].dirty, run, i, autoApprove, r, kept)
      {
        WorkIsCommitted(repos, run, i, autoApprove, r);
      }
      WorkLeft(repos, run, i, autoApprove, kept);
    }
  }

  // ---- A rejected story with a commit ----

  /** A story is reported as rejected and yet leaves a commit exactly when JUDGE approved it, it changed something, its
      three builds failed, the user was asked and approved, and something was written in the approval rounds. */
  lemma RejectedStoryCommitsIff(repos: seq<Repo>, run: StoryRun, i: nat, autoApprove: bool)
    ensures FinalVerdict(repos, run, i, autoApprove) != Approved
            && CommitCount(StoryOutcome(repos, run, i, autoApprove)) > CommitCount(repos) <==>
            && BuildRejected(repos, run, i) && !autoApprove && UserApproves(run, 1)
            && AnyText(run, |repos|, BuildEnd(run), BuildEnd(run) + ApprovalMoments(run, 1))
  {
    OutcomeCommitsIff(repos, run, i, autoApprove);
    if BuildRejected(repos, run, i) {
      WrittenFromClean(Cleaned(repos), run, i, BuildEnd(run), StoryEnd(run, autoApprove));
    }
    if autoApprove {
      assert !AnyText(run, |repos|, BuildEnd(run), BuildEnd(run));
    }
  }

  /** A story leaves a commit exactly when it is proposed, approved, and has something to commit. */
  lemma OutcomeCommitsIff(repos: seq<Repo>, run: StoryRun, i: nat, autoApprove: bool)
    ensures CommitCount(StoryOutcome(repos, run, i, autoApprove)) > CommitCount(repos) <==>
            && Proposed(repos, run, i) && (autoApprove || UserApproves(run, 1))
            && !Clean(Material(repos, run, i, autoApprove))
  {
    MaterialKeepsCommits(repos, run, i, autoApprove);
    CommittingCounts(Material(repos, run, i, autoApprove), i);
    CommitCountSame(Cleaned(repos), repos);
  }

  /** JUDGE approves the story at once and no call of its session throws, every build fails, the user approves, no
      exchange on the closed session succeeds, and an agent that was asked for a fix goes on writing. */
  ghost predicate Unbuildable(run: StoryRun) {
    && run.judge(1).verdict == Approved && run.answers(1) == Approve && !BuildsPass(run)
    && SessionMoments(run) == SessionEnd(run) && (forall k :: run.feedbackThrows(k))
    && run.writes(SessionEnd(run) - 1) == run.writes(StoryEnd(run, false) - 1) == [[7]]
  }

  lemma UnbuildableStory(run: StoryRun, i: nat)
    requires Unbuildable(run)
    ensures BuildRejected([Repo([], [])], run, i)
    ensures |StoryOutcome([Repo([], [])], run, i, false)[0].commits| == 1
  {
    var repos := [Repo([], [])];
    WrittenAt(repos, run, i, 0, SessionEnd(run), 0);
    assert |Texts(run, 0, 0, SessionEnd(run))| > 0;
    OutcomeCommits(repos, run, i, false, 0);
    assert StoryEnd(run, false) == BuildEnd(run) + 1;
    assert |Texts(run, 0, BuildEnd(run), StoryEnd(run, false))| > 0;
  }

  /** Such a story is reported as rejected, with one commit. */
  method RejectedStoryWithCommit() returns (result: StoryResult, commits: nat)
    ensures result.verdict == Rejected && commits == 1
  {
    var run := StoryRun(_ => Judgement(Approved, 0, 100), _ => false, _ => false, _ => Approve, _ => true, _ => [[7]]);
    assert Quiet(run.throws, |StoryScript(run.judge)|);
    result, commits := DevelopUnbuildable(run);
  }

  method DevelopUnbuildable(run: StoryRun) returns (result: StoryResult, commits: nat)
    requires Unbuildable(run)
    ensures result.verdict == Rejected && commits == 1
  {
    var now, twice;
    ghost var events;
    UnbuildableStory(run, 0);
    now, result, twice, commits, events := DevelopStory([Repo([], [])], 0, run, false);
    assert now == [now[0]];
  }

  /** Once the session is closed its waits only time out, so feedback is never carried out: the first answer decides. */
  lemma ClosedSessionDecides(run: StoryRun)
    requires forall k :: run.feedbackThrows(k)
    ensures UserApproves(run, 1) <==> run.answers(1) == Approve
  {
  }
}

/** The Developer phase: all stories of a task, what it reports of them, and where it resumes after a crash
    (src/orchestration/phases/DeveloperPhaseV2.ts). */
module DeveloperPhase {
  import opened Wrappers
  import opened PromptLoops
  import opened Repositories
  import opened StoryProgress
  import opened DeveloperStory

  // ---- Reports ----

  /** How a story ended, and whether it was reported twice. */
  datatype Fate = Fate(verdict: Verdict, twice: bool)

  function FateOf(repos: seq<Repo>, run: StoryRun, i: nat, autoApprove: bool): Fate {
    Fate(FinalVerdict(repos, run, i, autoApprove), BuildRejected(repos, run, i))
  }

  function Report(i: nat, fate: Fate): seq<StoryResult> {
    [StoryResult(i, fate.verdict)] + if fate.twice then [StoryResult(i, fate.verdict)] else []
  }

  function Reports(fates: seq<Fate>): seq<StoryResult> {
    if fates == [] then [] else Reports(fates[..|fates| - 1]) + Report(|fates| - 1, fates[|fates| - 1])
  }

  predicate AllApproved(results: seq<StoryResult>) {
    forall k :: 0 <= k < |results| ==> results[k].verdict == Approved
  }

  function Mentions(results: seq<StoryResult>, i: nat): nat {
    if results == [] then 0 else (if results[0].story == i then 1 else 0) + Mentions(results[1..], i)
  }

  lemma {:induction false} MentionsConcat(a: seq<StoryResult>, b: seq<StoryResult>, i: nat)
    ensures Mentions(a + b, i) == Mentions(a, i) + Mentions(b, i)
  {
    if a == [] {
      assert a + b == b;
    } else {
      assert (a + b)[1..] == a[1..] + b;
      MentionsConcat(a[1..], b, i);
    }
  }

  lemma ReportMentions(i: nat, fate: Fate, k: nat)
    ensures Mentions(Report(i, fate), k) == if k != i then 0 else if fate.twice then 2 else 1
  {
    var one := [StoryResult(i, fate.verdict)];
    assert Mentions(one, k) == (if k == i then 1 else 0) + Mentions(one[1..], k);
    MentionsConcat(one, if fate.twice then one else [], k);
  }

  /** Every story is reported, and exactly once unless its builds failed. */
  lemma {:induction false} EachStoryReported(fates: seq<Fate>, i: nat)
    ensures Mentions(Reports(fates), i) == if i >= |fates| then 0 else if fates[i].twice then 2 else 1
  {
    if fates != [] {
      var n := |fates| - 1;
      EachStoryReported(fates[..n], i);
      MentionsConcat(Reports(fates[..n]), Report(n, fates[n]), i);
      ReportMentions(n, fates[n], i);
    }
  }

  lemma AllApprovedConcat(a: seq<StoryResult>, b: seq<StoryResult>)
    ensures AllApproved(a + b) <==> AllApproved(a) && AllApproved(b)
  {
    if AllApproved(a + b) {
      forall k | 0 <= k < |a| ensures a[k].verdict == Approved {
        assert (a + b)[k] == a[k];
      }
      forall k | 0 <= k < |b| ensures b[k].verdict == Approved {
        assert (a + b)[|a| + k] == b[k];
      }
    }
  }

  /** The reports are all approvals exactly when every story was approved. */
  lemma {:induction false} SuccessExact(fates: seq<Fate>)
    ensures AllApproved(Reports(fates)) <==> forall i :: 0 <= i < |fates| ==> fates[i].verdict == Approved
  {
    if fates != [] {
      var n := |fates| - 1;
      SuccessExact(fates[..n]);
      AllApprovedConcat(Reports(fates[..n]), Report(n, fates[n]));
      assert AllApproved(Report(n, fates[n])) <==> Report(n, fates[n])[0].verdict == Approved;
    }
  }

  // ---- The phase ----

  /** How a story is decided depends only on what it writes and on what it finds uncommitted. */
  lemma SameFromClean(a: seq<Repo>, b: seq<Repo>, run: StoryRun, i: nat, autoApprove: bool)
    requires |a| == |b| && Clean(a) && Clean(b)
    ensures FateOf(a, run, i, autoApprove) == FateOf(b, run, i, autoApprove)
    ensures Proposed(a, run, i) == Proposed(b, run, i)
  {
    forall r | 0 <= r < |a| ensures AfterSession(a, run, i)[r].dirty == AfterSession(b, run, i)[r].dirty {
      WrittenAt(a, run, i, 0, SessionEnd(run), r);
      WrittenAt(b, run, i, 0, SessionEnd(run), r);
    }
  }

  /** The fate of story i in a phase that starts at story `start`: every story but the first finds the repositories
      clean, and a story that is skipped counts as approved, whatever its verdict was. */
  function StoryFate(repos: seq<Repo>, runs: nat -> StoryRun, start: nat, i: nat, autoApprove: bool): Fate {
    if i < start then Fate(Approved, false)
    else FateOf(if i == start then repos else Cleaned(repos), runs(i), i, autoApprove)
  }

  /** The fates of the first stories of a phase. */
  ghost predicate Fated(fates: seq<Fate>, repos: seq<Repo>, runs: nat -> StoryRun, start: nat, autoApprove: bool) {
    forall i {:trigger StoryFate(repos, runs, start, i, autoApprove)} ::
      0 <= i < |fates| ==> fates[i] == StoryFate(repos, runs, start, i, autoApprove)
  }

  /** The results so far are the reports of the fates of the first stories. */
  ghost predicate Reported(results: seq<StoryResult>, fates: seq<Fate>, repos: seq<Repo>, runs: nat -> StoryRun,
                           start: nat, autoApprove: bool)
  {
    results == Reports(fates) && Fated(fates, repos, runs, start, autoApprove)
  }

  lemma ReportedNext(results: seq<StoryResult>, fates: seq<Fate>, repos: seq<Repo>, runs: nat -> StoryRun, start: nat,
                     autoApprove: bool, fate: Fate)
    requires Reported(results, fates, repos, runs, start, autoApprove)
    requires fate == StoryFate(repos, runs, start, |fates|, autoApprove)
    ensures Reported(results + Report(|fates|, fate), fates + [fate], repos, runs, start, autoApprove)
  {
    ReportsNext(fates, fate);
  }

  lemma ReportsNext(fates: seq<Fate>, fate: Fate)
    ensures Reports(fates + [fate]) == Reports(fates) + Report(|fates|, fate)
  {
    assert (fates + [fate])[..|fates|] == fates;
  }

  /** The process is about to carry out story i, with these repositories. */
  ghost predicate Reached(w: World, events: seq<Event>, n: nat, repos: seq<Repo>, i: nat) {
    var now := After(w, events);
    Legal(w, events, n) && now.repos == repos && NextStory(now.saved) == i && now.stage.Idle?
  }

  /** Starting a story, finishing it and storing its index, when its work leaves everything clean. */
  lemma StoryIsLegal(w: World, events: seq<Event>, repos: seq<Repo>, body: seq<Event>, i: nat, n: nat)
    requires Reached(w, events, n, repos, i) && i < n && Body(body, i) && Clean(Replay(repos, body))
    ensures Reached(w, events + [Started(i)] + body + [Finished(i)] + [Saved(i)], n, Replay(repos, body), i + 1)
  {
    var begun := events + [Started(i)];
    LegalNext(w, events, Started(i), n);
    assert Apply(repos, Started(i)) == repos;
    BodyIsLegal(After(w, begun), body, n);
    LegalConcat(w, begun, body, n);
    StoryEndIsLegal(w, begun + body, Replay(repos, body), CommittedIn(body), i, n);
  }

  lemma StoryEndIsLegal(w: World, events: seq<Event>, repos: seq<Repo>, committed: set<nat>, i: nat, n: nat)
    requires Legal(w, events, n) && After(w, events).repos == repos && After(w, events).stage == Working(committed)
    requires NextStory(After(w, events).saved) == i && Clean(repos)
    ensures Reached(w, events + [Finished(i)] + [Saved(i)], n, repos, i + 1)
  {
    LegalNext(w, events, Finished(i), n);
    LegalNext(w, events + [Finished(i)], Saved(i), n);
    assert Apply(repos, Finished(i)) == repos && Apply(repos, Saved(i)) == repos;
  }

  /** What each story makes of the repositories it finds. */
  type Turn = (seq<Repo>, nat) -> seq<Repo>

  function Fold(turn: Turn, repos: seq<Repo>, start: nat, n: nat): seq<Repo> {
    if n <= start then repos else turn(Fold(turn, repos, start, n - 1), n - 1)
  }

  function StoryTurn(runs: nat -> StoryRun, autoApprove: bool): Turn {
    (repos: seq<Repo>, i: nat) => StoryOutcome(repos, runs(i), i, autoApprove)
  }

  /** The repositories after the stories from `start` up to n. */
  function PhaseOutcome(repos: seq<Repo>, runs: nat -> StoryRun, start: nat, n: nat, autoApprove: bool): seq<Repo> {
    Fold(StoryTurn(runs, autoApprove), repos, start, n)
  }

  ghost predicate KeptByTurns(p: (seq<Repo>, nat) -> bool, turn: Turn, start: nat) {
    forall now: seq<Repo>, i: nat {:trigger turn(now, i)} :: i >= start && p(now, i) ==> p(turn(now, i), i + 1)
  }

  /** What every turn keeps, all keep. */
  lemma {:induction false} FoldInduction(p: (seq<Repo>, nat) -> bool, turn: Turn, repos: seq<Repo>, start: nat, n: nat)
    requires p(repos, start) && n >= start && KeptByTurns(p, turn, start)
    ensures p(Fold(turn, repos, start, n), n)
  {
    if n > start {
      FoldInduction(p, turn, repos, start, n - 1);
    }
  }

  /** Each of the states is what the next turn made of the one before it. */
  ghost predicate Chain(states: seq<seq<Repo>>, turn: Turn, start: nat) {
    states != [] && forall k: nat :: k + 1 < |states| ==> Link(states, turn, start, k)
  }

  ghost predicate Link(states: seq<seq<Repo>>, turn: Turn, start: nat, k: nat)
    requires k + 1 < |states|
  {
    states[k + 1] == turn(states[k], start + k)
  }

  lemma ChainNext(states: seq<seq<Repo>>, turn: Turn, start: nat, last: seq<Repo>, i: nat)
    requires Chain(states, turn, start) && last == states[|states| - 1] && i == start + |states| - 1
    ensures Chain(states + [turn(last, i)], turn, start)
  {
    var longer := states + [turn(last, i)];
    forall k: nat | k + 1 < |longer| ensures Link(longer, turn, start, k) {
      assert k + 1 < |states| ==> Link(states, turn, start, k);
    }
  }

  lemma {:induction false} ChainIsFold(states: seq<seq<Repo>>, turn: Turn, start: nat, k: nat)
    requires Chain(states, turn, start) && k < |states|
    ensures states[k] == Fold(turn, states[0], start, start + k)
  {
    if k > 0 {
      ChainIsFold(states, turn, start, k - 1);
      assert Link(states, turn, start, k - 1);
    }
  }

  lemma PhaseOutcomeClean(repos: seq<Repo>, runs: nat -> StoryRun, start: nat, n: nat, autoApprove: bool)
    requires start <= n
    ensures var now := PhaseOutcome(repos, runs, start, n, autoApprove);
            |now| == |repos| && if n == start then now == repos else Clean(now)
  {
    var p := (now: seq<Repo>, i: nat) => |now| == |repos| && if i == start then now == repos else Clean(now);
    var turn := StoryTurn(runs, autoApprove);
    forall now: seq<Repo>, i: nat | i >= start && p(now, i) ensures p(turn(now, i), i + 1) {
      assert turn(now, i) == StoryOutcome(now, runs(i), i, autoApprove);
    }
    FoldInduction(p, turn, repos, start, n);
  }

  lemma ChainIsPhase(states: seq<seq<Repo>>, runs: nat -> StoryRun, start: nat, n: nat, autoApprove: bool)
    requires Chain(states, StoryTurn(runs, autoApprove), start) && start <= n && |states| == n - start + 1
    ensures states[n - start] == PhaseOutcome(states[0], runs, start, n, autoApprove)
    ensures |states[n - start]| == |states[0]| && (n > start ==> Clean(states[n - start]))
  {
    ChainIsFold(states, StoryTurn(runs, autoApprove), start, n - start);
    PhaseOutcomeClean(states[0], runs, start, n, autoApprove);
  }

  // ---- What happens in a phase ----

  /** What happens during each turn. */
  type Log = (seq<Repo>, nat) -> seq<Event>

  function FoldLog(turn: Turn, log: Log, repos: seq<Repo>, start: nat, n: nat): seq<Event> {
    if n <= start then []
    else FoldLog(turn, log, repos, start, n - 1) + log(Fold(turn, repos, start, n - 1), n - 1)
  }

  function StoryLog(runs: nat -> StoryRun, autoApprove: bool): Log {
    (repos: seq<Repo>, i: nat) => TurnEvents(repos, runs(i), i, autoApprove)
  }

  /** A story from its start to its stored index. */
  function TurnEvents(repos: seq<Repo>, run: StoryRun, i: nat, autoApprove: bool): seq<Event> {
    [Started(i)] + StoryEvents(repos, run, i, autoApprove) + [Finished(i)] + [Saved(i)]
  }

  /** Everything that happens in a phase, in order. */
  function PhaseEvents(repos: seq<Repo>, runs: nat -> StoryRun, start: nat, n: nat, autoApprove: bool): seq<Event> {
    FoldLog(StoryTurn(runs, autoApprove), StoryLog(runs, autoApprove), repos, start, n)
  }

  /** Every turn takes a process from being about to carry out a story to being about to carry out the next. */
  ghost predicate Advances(w: World, turn: Turn, log: Log, n: nat) {
    forall events: seq<Event>, repos: seq<Repo>, i: nat {:trigger Reached(w, events, n, repos, i), log(repos, i)} ::
      i < n && Reached(w, events, n, repos, i) ==> Reached(w, events + log(repos, i), n, turn(repos, i), i + 1)
  }

  lemma {:induction false} FoldReaches(w: World, turn: Turn, log: Log, repos: seq<Repo>, start: nat, m: nat, n: nat)
    requires Advances(w, turn, log, n) && start <= m <= n && Reached(w, [], n, repos, start)
    ensures Reached(w, FoldLog(turn, log, repos, start, m), n, Fold(turn, repos, start, m), m)
  {
    if m > start {
      FoldReaches(w, turn, log, repos, start, m - 1, n);
    }
  }

  lemma StoriesAdvanceIt(w: World, runs: nat -> StoryRun, n: nat, autoApprove: bool)
    ensures Advances(w, StoryTurn(runs, autoApprove), StoryLog(runs, autoApprove), n)
  {
    var turn, log := StoryTurn(runs, autoApprove), StoryLog(runs, autoApprove);
    forall events: seq<Event>, repos: seq<Repo>, i: nat | i < n && Reached(w, events, n, repos, i)
      ensures Reached(w, events + log(repos, i), n, turn(repos, i), i + 1)
    {
      TurnReaches(w, events, repos, runs, i, n, autoApprove);
    }
  }

  /** A phase carried out up to story m reaches what its stories leave, and is legal on the way. */
  lemma PhaseReaches(repos: seq<Repo>, saved: Option<nat>, runs: nat -> StoryRun, m: nat, n: nat, autoApprove: bool)
    requires NextStory(saved) <= m <= n
    ensures Reached(World(repos, saved, Idle), PhaseEvents(repos, runs, NextStory(saved), m, autoApprove), n,
                    PhaseOutcome(repos, runs, NextStory(saved), m, autoApprove), m)
  {
    StoriesAdvanceIt(World(repos, saved, Idle), runs, n, autoApprove);
    FoldReaches(World(repos, saved, Idle), StoryTurn(runs, autoApprove), StoryLog(runs, autoApprove), repos,
                NextStory(saved), m, n);
  }

  lemma TurnReaches(w: World, events: seq<Event>, repos: seq<Repo>, runs: nat -> StoryRun, i: nat, n: nat,
                    autoApprove: bool)
    requires Reached(w, events, n, repos, i) && i < n
    ensures Reached(w, events + StoryLog(runs, autoApprove)(repos, i), n, StoryTurn(runs, autoApprove)(repos, i), i + 1)
  {
    StoryReplay(repos, runs(i), i, autoApprove);
    PieceIsLegal(w, events, repos, StoryEvents(repos, runs(i), i, autoApprove), i, n);
  }

  lemma PieceIsLegal(w: World, events: seq<Event>, repos: seq<Repo>, body: seq<Event>, i: nat, n: nat)
    requires Reached(w, events, n, repos, i) && i < n && Body(body, i) && Clean(Replay(repos, body))
    ensures Reached(w, events + ([Started(i)] + body + [Finished(i)] + [Saved(i)]), n, Replay(repos, body), i + 1)
  {
    StoryIsLegal(w, events, repos, body, i, n);
    assert events + [Started(i)] + body + [Finished(i)] + [Saved(i)]
        == events + ([Started(i)] + body + [Finished(i)] + [Saved(i)]);
  }

  /** The pieces are what happened in the turns between the states. */
  ghost predicate Logged(states: seq<seq<Repo>>, pieces: seq<seq<Event>>, log: Log, start: nat) {
    |states| == |pieces| + 1 && forall k: nat :: k < |pieces| ==> Piece(states, pieces, log, start, k)
  }

  ghost predicate Piece(states: seq<seq<Repo>>, pieces: seq<seq<Event>>, log: Log, start: nat, k: nat)
    requires k < |pieces| < |states|
  {
    pieces[k] == log(states[k], start + k)
  }

  function Flatten(pieces: seq<seq<Event>>): seq<Event> {
    if pieces == [] then [] else Flatten(pieces[..|pieces| - 1]) + pieces[|pieces| - 1]
  }

  lemma FlattenNext(pieces: seq<seq<Event>>, piece: seq<Event>)
    ensures Flatten(pieces + [piece]) == Flatten(pieces) + piece
  {
    assert (pieces + [piece])[..|pieces|] == pieces;
  }

  lemma LoggedNext(states: seq<seq<Repo>>, pieces: seq<seq<Event>>, log: Log, start: nat, now: seq<Repo>,
                   last: seq<Repo>, i: nat)
    requires Logged(states, pieces, log, start) && last == states[|pieces|] && i == start + |pieces|
    ensures Logged(states + [now], pieces + [log(last, i)], log, start)
  {
    var longer, more := states + [now], pieces + [log(last, i)];
    forall k: nat | k < |more| ensures Piece(longer, more, log, start, k) {
      assert k < |pieces| ==> Piece(states, pieces, log, start, k);
    }
  }

  lemma {:induction false} LoggedIsFold(states: seq<seq<Repo>>, pieces: seq<seq<Event>>, turn: Turn, log: Log,
                                        start: nat, k: nat)
    requires Chain(states, turn, start) && Logged(states, pieces, log, start) && k <= |pieces|
    ensures Flatten(pieces[..k]) == FoldLog(turn, log, states[0], start, start + k)
  {
    if k > 0 {
      LoggedIsFold(states, pieces, turn, log, start, k - 1);
      ChainIsFold(states, turn, start, k - 1);
      assert Piece(states, pieces, log, start, k - 1);
      assert pieces[..k] == pieces[..k - 1] + [pieces[k - 1]];
      FlattenNext(pieces[..k - 1], pieces[k - 1]);
    }
  }

  /** The commits of those stories in repository r, in order. */
  function PhaseCommits(repos: seq<Repo>, runs: nat -> StoryRun, start: nat, n: nat, autoApprove: bool, r: nat)
    : seq<Commit>
    requires r < |repos|
  {
    Joined(TurnCommits(repos, runs, start, autoApprove, r), start, n)
  }

  /** The commits of each story, which finds everything clean unless it is the first. */
  function TurnCommits(repos: seq<Repo>, runs: nat -> StoryRun, start: nat, autoApprove: bool, r: nat)
    : nat -> seq<Commit>
    requires r < |repos|
  {
    (i: nat) => StoryCommits(if i == start then repos else Cleaned(repos), runs(i), i, autoApprove, r)
  }

  function Joined(turn: nat -> seq<Commit>, start: nat, n: nat): seq<Commit> {
    if n <= start then [] else Joined(turn, start, n - 1) + turn(n - 1)
  }

  lemma {:induction false} JoinedSame(a: nat -> seq<Commit>, b: nat -> seq<Commit>, start: nat, n: nat)
    requires forall i: nat :: start <= i < n ==> a(i) == b(i)
    ensures Joined(a, start, n) == Joined(b, start, n)
  {
    if n > start {
      JoinedSame(a, b, start, n - 1);
    }
  }

  /** The commits of repository r are those it had and those of the stories from `start` up to n. */
  ghost predicate Accounted(repos: seq<Repo>, now: seq<Repo>, runs: nat -> StoryRun, start: nat, n: nat,
                            autoApprove: bool, r: nat)
    requires r < |repos|
  {
    |now| == |repos| && now[r].commits == repos[r].commits + PhaseCommits(repos, runs, start, n, autoApprove, r)
  }

  /** A phase adds to every repository exactly the commits of its stories, in order: of the first with what it found
      uncommitted, of every other with what was written during it. */
  lemma PhaseOutcomeCommits(repos: seq<Repo>, runs: nat -> StoryRun, start: nat, n: nat, autoApprove: bool, r: nat)
    requires r < |repos| && start <= n
    ensures Accounted(repos, PhaseOutcome(repos, runs, start, n, autoApprove), runs, start, n, autoApprove, r)
  {
    FollowsAtStart(repos, runs, start, autoApprove, r);
    TurnsFollow(repos, runs, start, autoApprove, r);
    FoldInduction(Following(repos, runs, start, autoApprove, r), StoryTurn(runs, autoApprove), repos, start, n);
    FollowsAccounts(repos, PhaseOutcome(repos, runs, start, n, autoApprove), runs, start, n, autoApprove, r);
  }

  ghost function Following(repos: seq<Repo>, runs: nat -> StoryRun, start: nat, autoApprove: bool, r: nat)
    : (seq<Repo>, nat) -> bool
    requires r < |repos|
  {
    (now: seq<Repo>, i: nat) => Follows(repos, now, runs, start, i, autoApprove, r)
  }

  lemma TurnsFollow(repos: seq<Repo>, runs: nat -> StoryRun, start: nat, autoApprove: bool, r: nat)
    requires r < |repos|
    ensures KeptByTurns(Following(repos, runs, start, autoApprove, r), StoryTurn(runs, autoApprove), start)
  {
    var p, turn := Following(repos, runs, start, autoApprove, r), StoryTurn(runs, autoApprove);
    forall now: seq<Repo>, i: nat | i >= start && p(now, i) ensures p(turn(now, i), i + 1) {
      TurnFollows(repos, now, runs, start, i, autoApprove, r);
    }
  }

  lemma TurnFollows(repos: seq<Repo>, now: seq<Repo>, runs: nat -> StoryRun, start: nat, i: nat, autoApprove: bool,
                    r: nat)
    requires r < |repos| && i >= start && Following(repos, runs, start, autoApprove, r)(now, i)
    ensures Following(repos, runs, start, autoApprove, r)(StoryTurn(runs, autoApprove)(now, i), i + 1)
  {
    PhaseCommitsNext(repos, now, runs, start, i, autoApprove, r);
  }

  lemma FollowsAtStart(repos: seq<Repo>, runs: nat -> StoryRun, start: nat, autoApprove: bool, r: nat)
    requires r < |repos|
    ensures Follows(repos, repos, runs, start, start, autoApprove, r)
  {
    assert repos[r].commits + [] == repos[r].commits;
  }

  lemma FollowsAccounts(repos: seq<Repo>, now: seq<Repo>, runs: nat -> StoryRun, start: nat, n: nat, autoApprove: bool,
                        r: nat)
    requires r < |repos| && Follows(repos, now, runs, start, n, autoApprove, r)
    ensures Accounted(repos, now, runs, start, n, autoApprove, r)
  {
  }

  ghost predicate Follows(repos: seq<Repo>, now: seq<Repo>, runs: nat -> StoryRun, start: nat, n: nat,
                          autoApprove: bool, r: nat)
    requires r < |repos|
  {
    Accounted(repos, now, runs, start, n, autoApprove, r) && if n == start then now == repos else Clean(now)
  }

  lemma Extend(x: seq<Commit>, a: seq<Commit>, b: seq<Commit>, c: seq<Commit>)
    requires x == a + b
    ensures x + c == a + (b + c)
  {
  }

  /** What a story adds does not depend on what the stories before it committed. */
  lemma PhaseCommitsNext(repos: seq<Repo>, before: seq<Repo>, runs: nat -> StoryRun, start: nat, n: nat,
                         autoApprove: bool, r: nat)
    requires r < |repos| && n >= start && Follows(repos, before, runs, start, n, autoApprove, r)
    ensures Follows(repos, StoryOutcome(before, runs(n), n, autoApprove), runs, start, n + 1, autoApprove, r)
  {
    var added := StoryCommits(if n == start then repos else Cleaned(repos), runs(n), n, autoApprove, r);
    OutcomeCommits(before, runs(n), n, autoApprove, r);
    if n > start {
      SameFromClean(before, Cleaned(repos), runs(n), n, autoApprove);
      assert before[r].dirty == Cleaned(repos)[r].dirty;
    }
    Extend(before[r].commits, repos[r].commits, PhaseCommits(repos, runs, start, n, autoApprove, r), added);
  }

  // ---- A phase that succeeds ----

  /** Story i of a phase that starts at story `start` ends well. */
  ghost predicate StoryEndsWell(repos: seq<Repo>, runs: nat -> StoryRun, start: nat, i: nat, autoApprove: bool) {
    EndsWell(i != start || Clean(repos), |repos|, runs(i), autoApprove)
  }

  lemma FateApprovedIff(repos: seq<Repo>, runs: nat -> StoryRun, start: nat, i: nat, autoApprove: bool)
    ensures StoryFate(repos, runs, start, i, autoApprove).verdict == Approved <==>
            i < start || StoryEndsWell(repos, runs, start, i, autoApprove)
  {
    if i >= start {
      ApprovedIff(if i == start then repos else Cleaned(repos), runs(i), i, autoApprove);
    }
  }

  /** A phase succeeds exactly if every story it carries out ends well. */
  lemma SuccessIff(results: seq<StoryResult>, fates: seq<Fate>, repos: seq<Repo>, runs: nat -> StoryRun, start: nat,
                   autoApprove: bool)
    requires Reported(results, fates, repos, runs, start, autoApprove)
    ensures AllApproved(results) <==>
            forall i :: start <= i < |fates| ==> StoryEndsWell(repos, runs, start, i, autoApprove)
  {
    SuccessExact(fates);
    forall i | 0 <= i < |fates|
      ensures fates[i].verdict == Approved <==> i < start || StoryEndsWell(repos, runs, start, i, autoApprove)
    {
      assert fates[i] == StoryFate(repos, runs, start, i, autoApprove);
      FateApprovedIff(repos, runs, start, i, autoApprove);
    }
    if forall i :: start <= i < |fates| ==> StoryEndsWell(repos, runs, start, i, autoApprove) {
      forall i | 0 <= i < |fates| ensures fates[i].verdict == Approved {
        assert i >= start ==> StoryEndsWell(repos, runs, start, i, autoApprove);
      }
    }
  }

  /** The commits of all the work of the stories that change something, in order. */
  ghost function FullCommits(repos: seq<Repo>, runs: nat -> StoryRun, start: nat, n: nat, autoApprove: bool, r: nat)
    : seq<Commit>
    requires r < |repos|
  {
    Joined(FullTurn(repos, runs, start, autoApprove, r), start, n)
  }

  ghost function FullTurn(repos: seq<Repo>, runs: nat -> StoryRun, start: nat, autoApprove: bool, r: nat)
    : nat -> seq<Commit>
    requires r < |repos|
  {
    (i: nat) => Kept(if i == start then repos[r].dirty else [], runs(i), i, autoApprove, r,
                     Changes(i != start || Clean(repos), |repos|, runs(i)))
  }

  /** A phase that succeeds has committed all the work of its stories. */
  lemma SuccessCommitsAll(repos: seq<Repo>, runs: nat -> StoryRun, start: nat, n: nat, autoApprove: bool, r: nat)
    requires r < |repos| && forall i :: start <= i < n ==> StoryEndsWell(repos, runs, start, i, autoApprove)
    ensures PhaseCommits(repos, runs, start, n, autoApprove, r) == FullCommits(repos, runs, start, n, autoApprove, r)
  {
    var a, b := TurnCommits(repos, runs, start, autoApprove, r), FullTurn(repos, runs, start, autoApprove, r);
    forall i: nat | start <= i < n ensures a(i) == b(i) {
      assert StoryEndsWell(repos, runs, start, i, autoApprove);
      WorkIsCommitted(if i == start then repos else Cleaned(repos), runs(i), i, autoApprove, r);
    }
    JoinedSame(a, b, start, n);
  }

  /** The whole phase, started fresh or after a crash. It carries out every story whose index is not stored, in order;
      it leaves exactly what the stories leave, what happens on the way is exactly what happens in the stories, and it
      reports exactly their fates. It succeeds exactly if every story it carries out ends well, and has then committed
      all their work. */
  method ExecuteDeveloperPhase(repos: seq<Repo>, n: nat, saved: Option<nat>, runs: nat -> StoryRun, autoApprove: bool)
    returns (now: seq<Repo>, success: bool, results: seq<StoryResult>, totalCommits: nat,
             ghost fates: seq<Fate>, ghost events: seq<Event>)
    requires NextStory(saved) <= n
    ensures now == PhaseOutcome(repos, runs, NextStory(saved), n, autoApprove)
    ensures NextStory(saved) < n || Clean(repos) ==> Clean(now)
    ensures totalCommits == CommitCount(now) - CommitCount(repos)
    ensures events == PhaseEvents(repos, runs, NextStory(saved), n, autoApprove)
    ensures |fates| == n && Reported(results, fates, repos, runs, NextStory(saved), autoApprove)
    ensures success == AllApproved(results)
    ensures success <==>
            forall i :: NextStory(saved) <= i < n ==> StoryEndsWell(repos, runs, NextStory(saved), i, autoApprove)
    ensures success ==> forall r :: 0 <= r < |repos| ==>
              |now| == |repos| &&
              now[r].commits == repos[r].commits + FullCommits(repos, runs, NextStory(saved), n, autoApprove, r)
  {
    now, success, results, totalCommits, fates, events := CarryAllOut(repos, n, saved, runs, autoApprove);
    SuccessIff(results, fates, repos, runs, NextStory(saved), autoApprove);
    if success {
      forall r | 0 <= r < |repos|
        ensures |now| == |repos| &&
                now[r].commits == repos[r].commits + FullCommits(repos, runs, NextStory(saved), n, autoApprove, r)
      {
        PhaseOutcomeCommits(repos, runs, NextStory(saved), n, autoApprove, r);
        SuccessCommitsAll(repos, runs, NextStory(saved), n, autoApprove, r);
      }
    }
  }

  method CarryAllOut(repos: seq<Repo>, n: nat, saved: Option<nat>, runs: nat -> StoryRun, autoApprove: bool)
    returns (now: seq<Repo>, success: bool, results: seq<StoryResult>, totalCommits: nat,
             ghost fates: seq<Fate>, ghost events: seq<Event>)
    requires NextStory(saved) <= n
    ensures now == PhaseOutcome(repos, runs, NextStory(saved), n, autoApprove)
    ensures NextStory(saved) < n || Clean(repos) ==> Clean(now)
    ensures totalCommits == CommitCount(now) - CommitCount(repos)
    ensures events == PhaseEvents(repos, runs, NextStory(saved), n, autoApprove)
    ensures |fates| == n && Reported(results, fates, repos, runs, NextStory(saved), autoApprove)
    ensures success == AllApproved(results)
  {
    ghost var start, states, pieces := NextStory(saved), [repos], [];
    now, results, totalCommits, fates := repos, [], 0, [];
    for i := 0 to n
      invariant |states| == (if i <= start then 1 else i - start + 1)
      invariant states[0] == repos && states[|states| - 1] == now
      invariant Chain(states, StoryTurn(runs, autoApprove), start)
      invariant Logged(states, pieces, StoryLog(runs, autoApprove), start)
      invariant totalCommits == CommitCount(now) - CommitCount(repos)
      invariant |fates| == i && Reported(results, fates, repos, runs, start, autoApprove)
    {
      if i < NextStory(saved) {
        results, fates := Skip(i, results, fates, repos, runs, start, autoApprove);
        continue;
      }
      var commits;
      now, results, commits, fates, states, pieces :=
        CarryOut(now, i, runs, autoApprove, results, fates, states, pieces, start);
      totalCommits := totalCommits + commits;
    }
    events := Flatten(pieces);
    PhaseIs(states, pieces, runs, start, n, autoApprove);
    success := AllApproved(results);
  }

  lemma PhaseIs(states: seq<seq<Repo>>, pieces: seq<seq<Event>>, runs: nat -> StoryRun, start: nat, n: nat,
                autoApprove: bool)
    requires Chain(states, StoryTurn(runs, autoApprove), start) &&
             Logged(states, pieces, StoryLog(runs, autoApprove), start)
    requires start <= n && |states| == n - start + 1
    ensures states[n - start] == PhaseOutcome(states[0], runs, start, n, autoApprove)
    ensures n > start ==> Clean(states[n - start])
    ensures Flatten(pieces) == PhaseEvents(states[0], runs, start, n, autoApprove)
  {
    ChainIsPhase(states, runs, start, n, autoApprove);
    LoggedIsAll(states, pieces, StoryTurn(runs, autoApprove), StoryLog(runs, autoApprove), start, n);
  }

  lemma LoggedIsAll(states: seq<seq<Repo>>, pieces: seq<seq<Event>>, turn: Turn, log: Log, start: nat, n: nat)
    requires Chain(states, turn, start) && Logged(states, pieces, log, start) && start <= n && |pieces| == n - start
    ensures Flatten(pieces) == FoldLog(turn, log, states[0], start, n)
  {
    LoggedIsFold(states, pieces, turn, log, start, n - start);
    assert pieces[..n - start] == pieces;
  }

  /** A story whose index is stored is reported as approved. */
  method Skip(i: nat, earlier: seq<StoryResult>, ghost past: seq<Fate>,
              ghost first: seq<Repo>, ghost runs: nat -> StoryRun, ghost start: nat, ghost autoApprove: bool)
    returns (results: seq<StoryResult>, ghost fates: seq<Fate>)
    requires i == |past| < start && Reported(earlier, past, first, runs, start, autoApprove)
    ensures results == earlier + [StoryResult(i, Approved)]
    ensures |fates| == i + 1 && Reported(results, fates, first, runs, start, autoApprove)
  {
    ReportedNext(earlier, past, first, runs, start, autoApprove, Fate(Approved, false));
    results := earlier + [StoryResult(i, Approved)];
    fates := past + [Fate(Approved, false)];
  }

  /** One turn of the phase: the story, its reports, and the stored index. */
  method CarryOut(repos: seq<Repo>, i: nat, runs: nat -> StoryRun, autoApprove: bool, earlier: seq<StoryResult>,
                  ghost past: seq<Fate>, ghost before: seq<seq<Repo>>, ghost done: seq<seq<Event>>, ghost start: nat)
    returns (now: seq<Repo>, results: seq<StoryResult>, commits: nat,
             ghost fates: seq<Fate>, ghost states: seq<seq<Repo>>, ghost pieces: seq<seq<Event>>)
    requires start <= i && |before| == i - start + 1 && before[i - start] == repos
    requires Chain(before, StoryTurn(runs, autoApprove), start)
    requires Logged(before, done, StoryLog(runs, autoApprove), start)
    requires i == |past| && Reported(earlier, past, before[0], runs, start, autoApprove)
    ensures commits == CommitCount(now) - CommitCount(repos)
    ensures states == before + [now] && Chain(states, StoryTurn(runs, autoApprove), start)
    ensures Logged(states, pieces, StoryLog(runs, autoApprove), start)
    ensures |fates| == i + 1 && Reported(results, fates, before[0], runs, start, autoApprove)
  {
    ghost var piece, fate;
    now, results, commits, fate, piece := TakeTurn(repos, i, runs, autoApprove, earlier);
    states, pieces, fates := before + [now], done + [piece], past + [fate];
    TurnReported(earlier, past, before, runs, start, i, autoApprove);
    ChainNext(before, StoryTurn(runs, autoApprove), start, repos, i);
    LoggedNext(before, done, StoryLog(runs, autoApprove), start, now, repos, i);
  }

  /** A story, added to the results. */
  method TakeTurn(repos: seq<Repo>, i: nat, runs: nat -> StoryRun, autoApprove: bool, earlier: seq<StoryResult>)
    returns (now: seq<Repo>, results: seq<StoryResult>, commits: nat, ghost fate: Fate, ghost piece: seq<Event>)
    ensures now == StoryTurn(runs, autoApprove)(repos, i) && commits == CommitCount(now) - CommitCount(repos)
    ensures results == earlier + Report(i, fate) && fate == FateOf(repos, runs(i), i, autoApprove)
    ensures piece == StoryLog(runs, autoApprove)(repos, i)
  {
    var result, twice;
    now, result, twice, commits, piece := OneStory(repos, i, runs, autoApprove);
    results := earlier + if twice then [result, result] else [result];
    fate := FateOf(repos, runs(i), i, autoApprove);
  }

  method OneStory(repos: seq<Repo>, i: nat, runs: nat -> StoryRun, autoApprove: bool)
    returns (now: seq<Repo>, result: StoryResult, twice: bool, commits: nat, ghost piece: seq<Event>)
    ensures now == StoryTurn(runs, autoApprove)(repos, i) && commits == CommitCount(now) - CommitCount(repos)
    ensures Fate(result.verdict, twice) == FateOf(repos, runs(i), i, autoApprove) && result.story == i
    ensures piece == StoryLog(runs, autoApprove)(repos, i)
  {
    ghost var body;
    now, result, twice, commits, body := DevelopStory(repos, i, runs(i), autoApprove);
    piece := [Started(i)] + body + [Finished(i)] + [Saved(i)];
    TurnIs(repos, runs, i, autoApprove);
  }

  lemma TurnReported(earlier: seq<StoryResult>, past: seq<Fate>, states: seq<seq<Repo>>, runs: nat -> StoryRun,
                     start: nat, i: nat, autoApprove: bool)
    requires start <= i && |states| == i - start + 1 && Chain(states, StoryTurn(runs, autoApprove), start)
    requires i == |past| && Reported(earlier, past, states[0], runs, start, autoApprove)
    ensures var fate := FateOf(states[i - start], runs(i), i, autoApprove);
            Reported(earlier + Report(i, fate), past + [fate], states[0], runs, start, autoApprove)
  {
    FateFound(states, runs, start, i, autoApprove);
    ReportedNext(earlier, past, states[0], runs, start, autoApprove,
                 FateOf(states[i - start], runs(i), i, autoApprove));
  }

  lemma TurnIs(repos: seq<Repo>, runs: nat -> StoryRun, i: nat, autoApprove: bool)
    ensures StoryTurn(runs, autoApprove)(repos, i) == StoryOutcome(repos, runs(i), i, autoApprove)
    ensures StoryLog(runs, autoApprove)(repos, i) == TurnEvents(repos, runs(i), i, autoApprove)
  {
  }

  lemma FateFound(states: seq<seq<Repo>>, runs: nat -> StoryRun, start: nat, i: nat, autoApprove: bool)
    requires start <= i && Chain(states, StoryTurn(runs, autoApprove), start) && |states| == i - start + 1
    ensures FateOf(states[i - start], runs(i), i, autoApprove) == StoryFate(states[0], runs, start, i, autoApprove)
  {
    ChainIsPhase(states, runs, start, i, autoApprove);
    if i > start {
      SameFromClean(states[i - start], Cleaned(states[0]), runs(i), i, autoApprove);
    }
  }

  /** At every moment of a phase that starts with nothing uncommitted but edits of its first story, every commit holds
      only edits of its own story; and so it stays if the phase is cut off there and resumed, however often. */
  lemma PhaseIsolates(repos: seq<Repo>, saved: Option<nat>, runs: nat -> StoryRun, n: nat, autoApprove: bool, k: nat,
                      later: seq<Event>)
    requires Isolated(World(repos, saved, Idle)) && NextStory(saved) <= n
    requires var events := PhaseEvents(repos, runs, NextStory(saved), n, autoApprove);
             k <= |events| && Legal(After(World(repos, saved, Idle), events[..k] + [Crashed]), later, n)
    ensures var w, events := World(repos, saved, Idle), PhaseEvents(repos, runs, NextStory(saved), n, autoApprove);
            Isolated(After(w, events[..k])) && Isolated(After(w, events[..k] + [Crashed] + later))
  {
    PhaseReaches(repos, saved, runs, n, n, autoApprove);
    LegalIsolates(World(repos, saved, Idle), PhaseEvents(repos, runs, NextStory(saved), n, autoApprove), n, k, later);
  }

  lemma LegalIsolates(w: World, events: seq<Event>, n: nat, k: nat, later: seq<Event>)
    requires Isolated(w) && Legal(w, events, n) && k <= |events|
    requires Legal(After(w, events[..k] + [Crashed]), later, n)
    ensures Isolated(After(w, events[..k])) && Isolated(After(w, events[..k] + [Crashed] + later))
  {
    LegalPrefix(w, events, k, n);
    IsolationAlways(w, events[..k], n);
    LegalConcat(w, events[..k] + [Crashed], later, n);
    IsolationAlways(w, events[..k] + [Crashed] + later, n);
  }

  // ---- What a resumed phase forgets ----

  /** The fates a phase resumed at story s reports, where `fates` are those of the phase that was not interrupted. */
  function Resumed(fates: seq<Fate>, s: nat): (r: seq<Fate>)
    ensures |r| == |fates|
    ensures forall i :: 0 <= i < |fates| ==> r[i] == if i < s then Fate(Approved, false) else fates[i]
  {
    seq(|fates|, i requires 0 <= i < |fates| => if i < s then Fate(Approved, false) else fates[i])
  }

  /** What a story finds uncommitted makes no difference to its fate: there is something uncommitted in both cases or in
      neither, JUDGE does not approve it, its session writes something itself, or it would be built and approved. */
  predicate Undisturbed(clean: bool, cleanAgain: bool, run: StoryRun, repoCount: nat, autoApprove: bool) {
    || clean == cleanAgain
    || SessionVerdict(run) != Approved
    || AnyText(run, repoCount, 0, SessionEnd(run))
    || (BuildsPass(run) && (autoApprove || UserApproves(run, 1)))
  }

  lemma SameFateIff(a: seq<Repo>, b: seq<Repo>, run: StoryRun, i: nat, autoApprove: bool)
    requires |a| == |b|
    ensures FateOf(a, run, i, autoApprove) == FateOf(b, run, i, autoApprove) <==>
            Undisturbed(Clean(a), Clean(b), run, |a|, autoApprove)
    ensures !Undisturbed(Clean(a), Clean(b), run, |a|, autoApprove) ==>
              FinalVerdict(a, run, i, autoApprove) == (if Clean(a) then Approved else Rejected)
              && FinalVerdict(b, run, i, autoApprove) == (if Clean(b) then Approved else Rejected)
  {
    ProposedIff(a, run, i);
    ProposedIff(b, run, i);
  }

  /** `fates` are those of a phase over all stories, `again` those of one resumed at story s with what a crash left. */
  ghost predicate Resumption(repos: seq<Repo>, left: seq<Repo>, runs: nat -> StoryRun, s: nat, autoApprove: bool,
                             fates: seq<Fate>, again: seq<Fate>)
  {
    && |left| == |repos| && s <= |fates| == |again|
    && Fated(fates, repos, runs, 0, autoApprove) && Fated(again, left, runs, s, autoApprove)
  }

  /** Story s, if there is one, is not disturbed by what the crash left of it. */
  predicate ResumesUndisturbed(repos: seq<Repo>, left: seq<Repo>, runs: nat -> StoryRun, s: nat, n: nat,
                               autoApprove: bool) {
    s < n ==> Undisturbed(s > 0 || Clean(repos), Clean(left), runs(s), |repos|, autoApprove)
  }

  lemma ResumedAt(repos: seq<Repo>, left: seq<Repo>, runs: nat -> StoryRun, s: nat, autoApprove: bool,
                  fates: seq<Fate>, again: seq<Fate>, i: nat)
    requires Resumption(repos, left, runs, s, autoApprove, fates, again) && i < |fates|
    ensures i < s ==> again[i] == Fate(Approved, false)
    ensures i > s ==> again[i] == fates[i]
    ensures i == s ==> (again[i] == fates[i] <==> ResumesUndisturbed(repos, left, runs, s, |fates|, autoApprove))
    ensures i == s && again[i] != fates[i] ==>
              && fates[i].verdict == (if s > 0 || Clean(repos) then Approved else Rejected)
              && again[i].verdict == (if Clean(left) then Approved else Rejected)
              && fates[i].verdict != again[i].verdict
  {
    assert fates[i] == StoryFate(repos, runs, 0, i, autoApprove) &&
           again[i] == StoryFate(left, runs, s, i, autoApprove);
    if i >= s {
      var found, foundAgain := if i == 0 then repos else Cleaned(repos), if i == s then left else Cleaned(left);
      SameFateIff(found, foundAgain, runs(i), i, autoApprove);
    }
  }

  /** A phase resumed at story s, whatever a crash left, has the fates of the uninterrupted one, with every skipped
      story approved and reported once, if and only if what was left does not disturb story s. */
  lemma ResumedFatesIff(repos: seq<Repo>, left: seq<Repo>, runs: nat -> StoryRun, s: nat, autoApprove: bool,
                        fates: seq<Fate>, again: seq<Fate>)
    requires Resumption(repos, left, runs, s, autoApprove, fates, again)
    ensures again == Resumed(fates, s) <==> ResumesUndisturbed(repos, left, runs, s, |fates|, autoApprove)
  {
    forall i | 0 <= i < |fates|
      ensures again[i] == Resumed(fates, s)[i] <==>
              i != s || ResumesUndisturbed(repos, left, runs, s, |fates|, autoApprove)
    {
      ResumedAt(repos, left, runs, s, autoApprove, fates, again, i);
    }
    if again == Resumed(fates, s) && s < |fates| {
      assert again[s] == Resumed(fates, s)[s];
    }
  }

  /** The reports tell the fates. */
  lemma {:induction false} ReportsInjective(a: seq<Fate>, b: seq<Fate>)
    requires |a| == |b| && Reports(a) == Reports(b)
    ensures a == b
  {
    if a != [] {
      var n := |a| - 1;
      EachStoryReported(a, n);
      EachStoryReported(b, n);
      SplitEnd(Reports(a[..n]), Report(n, a[n]), Reports(b[..n]), Report(n, b[n]));
      ReportsInjective(a[..n], b[..n]);
      assert Report(n, a[n])[0] == Report(n, b[n])[0];
      assert a == a[..n] + [a[n]] && b == b[..n] + [b[n]];
    }
  }

  lemma SplitEnd(p: seq<StoryResult>, x: seq<StoryResult>, q: seq<StoryResult>, y: seq<StoryResult>)
    requires p + x == q + y && |x| == |y|
    ensures p == q && x == y
  {
    assert p == (p + x)[..|p|] && q == (q + y)[..|q|];
    assert x == (p + x)[|p|..] && y == (q + y)[|q|..];
  }

  /** A resumed phase reports what the uninterrupted one reports if and only if every story it skips was approved and
      reported once, and what was left does not disturb the story it starts with. */
  lemma ResumedReportsIff(repos: seq<Repo>, left: seq<Repo>, runs: nat -> StoryRun, s: nat, autoApprove: bool,
                          fates: seq<Fate>, again: seq<Fate>)
    requires Resumption(repos, left, runs, s, autoApprove, fates, again)
    ensures Reports(again) == Reports(fates) <==>
            && (forall i :: 0 <= i < s ==> fates[i] == Fate(Approved, false))
            && ResumesUndisturbed(repos, left, runs, s, |fates|, autoApprove)
  {
    ResumedFatesIff(repos, left, runs, s, autoApprove, fates, again);
    if Reports(again) == Reports(fates) {
      ReportsInjective(again, fates);
      if s < |fates| {
        ResumedAt(repos, left, runs, s, autoApprove, fates, again, s);
      }
      forall i | 0 <= i < s ensures fates[i] == Fate(Approved, false) {
        ResumedAt(repos, left, runs, s, autoApprove, fates, again, i);
      }
    }
    if forall i :: 0 <= i < s ==> fates[i] == Fate(Approved, false) {
      assert Resumed(fates, s) == fates;
    }
  }

  predicate AllKept(fates: seq<Fate>) {
    forall i :: 0 <= i < |fates| ==> fates[i].verdict == Approved
  }

  lemma AllKeptConcat(a: seq<Fate>, b: seq<Fate>)
    ensures AllKept(a + b) <==> AllKept(a) && AllKept(b)
  {
    if AllKept(a + b) {
      forall i | 0 <= i < |a| ensures a[i].verdict == Approved {
        assert (a + b)[i] == a[i];
      }
      forall i | 0 <= i < |b| ensures b[i].verdict == Approved {
        assert (a + b)[|a| + i] == b[i];
      }
    }
  }

  lemma AllKeptAround(fates: seq<Fate>, s: nat)
    requires s < |fates|
    ensures AllKept(fates) <==> AllKept(fates[..s]) && fates[s].verdict == Approved && AllKept(fates[s + 1..])
  {
    assert fates == fates[..s] + ([fates[s]] + fates[s + 1..]);
    AllKeptConcat(fates[..s], [fates[s]] + fates[s + 1..]);
    AllKeptConcat([fates[s]], fates[s + 1..]);
    assert AllKept([fates[s]]) <==> [fates[s]][0].verdict == Approved;
  }

  /** A resumed phase is as successful as the uninterrupted one if and only if a story after the one it starts with is
      not approved, or else: if what was left disturbs the story it starts with, that story would have been approved and
      one that is skipped was not; if it does not, the skipped stories were all approved or the story it starts with is
      not. */
  lemma ResumedSuccessIff(repos: seq<Repo>, left: seq<Repo>, runs: nat -> StoryRun, s: nat, autoApprove: bool,
                          fates: seq<Fate>, again: seq<Fate>)
    requires Resumption(repos, left, runs, s, autoApprove, fates, again)
    ensures AllApproved(Reports(again)) == AllApproved(Reports(fates)) <==>
            if s == |fates| then AllKept(fates)
            else
              || !AllKept(fates[s + 1..])
              || (if ResumesUndisturbed(repos, left, runs, s, |fates|, autoApprove)
                  then AllKept(fates[..s]) || fates[s].verdict != Approved
                  else !AllKept(fates[..s]) && fates[s].verdict == Approved)
  {
    SuccessExact(fates);
    SuccessExact(again);
    SkippedKept(repos, left, runs, s, autoApprove, fates, again);
    if s < |fates| {
      ResumedAt(repos, left, runs, s, autoApprove, fates, again, s);
      AllKeptAround(fates, s);
      AllKeptAround(again, s);
    } else {
      assert again[..s] == again;
    }
  }

  lemma SkippedKept(repos: seq<Repo>, left: seq<Repo>, runs: nat -> StoryRun, s: nat, autoApprove: bool,
                    fates: seq<Fate>, again: seq<Fate>)
    requires Resumption(repos, left, runs, s, autoApprove, fates, again)
    ensures AllKept(again[..s]) && (s < |fates| ==> again[s + 1..] == fates[s + 1..])
  {
    forall i | 0 <= i < |fates| ensures (i < s ==> again[i].verdict == Approved) && (i > s ==> again[i] == fates[i]) {
      ResumedAt(repos, left, runs, s, autoApprove, fates, again, i);
    }
  }

  // ---- A crash anywhere ----

  /** What is uncommitted, if anything, does not disturb the next story: JUDGE does not approve it or it writes
      something in its session. */
  ghost predicate Harmless(w: World, runs: nat -> StoryRun) {
    var run := runs(NextStory(w.saved));
    Clean(w.repos) || SessionVerdict(run) != Approved || AnyText(run, |w.repos|, 0, SessionEnd(run))
  }

  /** Wherever the turn of a story that found everything clean is cut off, it leaves nothing that disturbs the next. */
  lemma TurnHarmless(w: World, runs: nat -> StoryRun, i: nat, autoApprove: bool, j: nat)
    requires Clean(w.repos) && NextStory(w.saved) == i && w.stage.Idle?
    requires j <= |TurnEvents(w.repos, runs(i), i, autoApprove)|
    ensures |After(w, TurnEvents(w.repos, runs(i), i, autoApprove)[..j]).repos| == |w.repos|
    ensures Harmless(After(w, TurnEvents(w.repos, runs(i), i, autoApprove)[..j]), runs)
  {
    var body := StoryEvents(w.repos, runs(i), i, autoApprove);
    var piece := TurnEvents(w.repos, runs(i), i, autoApprove);
    StoryReplay(w.repos, runs(i), i, autoApprove);
    AfterRepos(w, piece[..j]);
    if j == |piece| {
      PieceIsLegal(w, [], w.repos, body, i, i + 1);
      assert [] + piece == piece == piece[..j];
    } else {
      Unsaved(w, body, i, j);
      if SessionVerdict(runs(i)) == Approved && !AnyText(runs(i), |w.repos|, 0, SessionEnd(runs(i))) {
        StillTurn(w.repos, runs(i), i, autoApprove, j);
      }
    }
  }

  lemma Unsaved(w: World, body: seq<Event>, i: nat, j: nat)
    requires Body(body, i) && j < |[Started(i)] + body + [Finished(i)] + [Saved(i)]|
    ensures After(w, ([Started(i)] + body + [Finished(i)] + [Saved(i)])[..j]).saved == w.saved
  {
    var piece := [Started(i)] + body + [Finished(i)] + [Saved(i)];
    forall k | 0 <= k < j ensures !piece[..j][k].Saved? {
      if 1 <= k <= |body| {
        assert piece[k] == body[k - 1];
        BodyWorks(body, i, k - 1);
      }
    }
    AfterUnsaved(w, piece[..j]);
  }

  lemma StillTurn(repos: seq<Repo>, run: StoryRun, i: nat, autoApprove: bool, j: nat)
    requires Clean(repos) && SessionVerdict(run) == Approved && !AnyText(run, |repos|, 0, SessionEnd(run))
    requires j < |TurnEvents(repos, run, i, autoApprove)|
    ensures Replay(repos, TurnEvents(repos, run, i, autoApprove)[..j]) == repos
  {
    var writes := Writes(run, i, 0, SessionEnd(run));
    WrittenCleanIff(repos, run, i, 0, SessionEnd(run));
    assert StoryEvents(repos, run, i, autoApprove) == writes;
    NoTextIsStill(run, i, |repos|, SessionEnd(run), 0);
    forall k | 0 <= k < |writes| ensures Still(writes[k], |repos|) {
      NoTextIsStill(run, i, |repos|, SessionEnd(run), k);
    }
    StillPiece(repos, writes, i, j);
  }

  lemma StillPiece(repos: seq<Repo>, writes: seq<Event>, i: nat, j: nat)
    requires AllStill(writes, |repos|) && j < |[Started(i)] + writes + [Finished(i)] + [Saved(i)]|
    ensures Replay(repos, ([Started(i)] + writes + [Finished(i)] + [Saved(i)])[..j]) == repos
  {
    var n := |repos|;
    AllStillConcat([Started(i)], writes, n);
    AllStillConcat([Started(i)] + writes, [Finished(i)], n);
    AllStillConcat([Started(i)] + writes + [Finished(i)], [Saved(i)], n);
    AllStillPrefix([Started(i)] + writes + [Finished(i)] + [Saved(i)], n, j);
    StillReplay(repos, ([Started(i)] + writes + [Finished(i)] + [Saved(i)])[..j]);
  }

  /** Wherever a turn is cut off, p holds. */
  ghost predicate HoldsDuring(p: World -> bool, log: Log) {
    forall w: World, i: nat, j: nat {:trigger After(w, log(w.repos, i)[..j])} ::
      Clean(w.repos) && NextStory(w.saved) == i && w.stage.Idle? && j <= |log(w.repos, i)| ==>
      p(After(w, log(w.repos, i)[..j]))
  }

  /** Between the turns everything is clean and the next story is the next turn. */
  ghost predicate Arrives(turn: Turn, log: Log, repos: seq<Repo>) {
    forall m: nat {:trigger FoldLog(turn, log, repos, 0, m)} :: ArrivesAt(turn, log, repos, m)
  }

  ghost predicate ArrivesAt(turn: Turn, log: Log, repos: seq<Repo>, m: nat) {
    var w := After(Fresh(repos), FoldLog(turn, log, repos, 0, m));
    w.repos == Fold(turn, repos, 0, m) && Clean(w.repos) && NextStory(w.saved) == m && w.stage.Idle?
  }

  lemma {:induction false} HoldsAnywhere(p: World -> bool, turn: Turn, log: Log, repos: seq<Repo>, n: nat, k: nat)
    requires p(Fresh(repos)) && HoldsDuring(p, log) && Arrives(turn, log, repos)
    requires k <= |FoldLog(turn, log, repos, 0, n)|
    ensures p(After(Fresh(repos), FoldLog(turn, log, repos, 0, n)[..k]))
  {
    if n > 0 {
      var past, before := FoldLog(turn, log, repos, 0, n - 1), Fold(turn, repos, 0, n - 1);
      var piece := log(before, n - 1);
      if k <= |past| {
        HoldsAnywhere(p, turn, log, repos, n - 1, k);
        assert (past + piece)[..k] == past[..k];
      } else {
        AfterPrefix(Fresh(repos), past, piece, k - |past|);
        assert ArrivesAt(turn, log, repos, n - 1);
        var w := After(Fresh(repos), past);
        assert p(After(w, log(w.repos, n - 1)[..k - |past|]));
      }
    }
  }

  lemma StoriesArrive(repos: seq<Repo>, runs: nat -> StoryRun, autoApprove: bool)
    requires Clean(repos)
    ensures Arrives(StoryTurn(runs, autoApprove), StoryLog(runs, autoApprove), repos)
  {
    forall m: nat ensures ArrivesAt(StoryTurn(runs, autoApprove), StoryLog(runs, autoApprove), repos, m) {
      PhaseReaches(repos, None, runs, m, m, autoApprove);
      PhaseOutcomeClean(repos, runs, 0, m, autoApprove);
    }
  }

  ghost function HarmlessOf(runs: nat -> StoryRun, repoCount: nat): World -> bool {
    (w: World) => |w.repos| == repoCount ==> Harmless(w, runs)
  }

  lemma TurnsHarmless(runs: nat -> StoryRun, repoCount: nat, autoApprove: bool)
    ensures HoldsDuring(HarmlessOf(runs, repoCount), StoryLog(runs, autoApprove))
  {
    var p, log := HarmlessOf(runs, repoCount), StoryLog(runs, autoApprove);
    forall w: World, i: nat, j: nat
      | Clean(w.repos) && NextStory(w.saved) == i && w.stage.Idle? && j <= |log(w.repos, i)|
      ensures p(After(w, log(w.repos, i)[..j]))
    {
      TurnIs(w.repos, runs, i, autoApprove);
      TurnHarmless(w, runs, i, autoApprove, j);
    }
  }

  /** A phase that starts with clean repositories leaves nothing that disturbs the next story, wherever it is cut
      off. */
  lemma CrashIsHarmless(repos: seq<Repo>, runs: nat -> StoryRun, n: nat, autoApprove: bool, k: nat)
    requires Clean(repos) && k <= |PhaseEvents(repos, runs, 0, n, autoApprove)|
    ensures |After(Fresh(repos), PhaseEvents(repos, runs, 0, n, autoApprove)[..k]).repos| == |repos|
    ensures Harmless(After(Fresh(repos), PhaseEvents(repos, runs, 0, n, autoApprove)[..k]), runs)
  {
    StoriesArrive(repos, runs, autoApprove);
    TurnsHarmless(runs, |repos|, autoApprove);
    HoldsAnywhere(HarmlessOf(runs, |repos|), StoryTurn(runs, autoApprove), StoryLog(runs, autoApprove), repos, n, k);
    AfterRepos(Fresh(repos), PhaseEvents(repos, runs, 0, n, autoApprove)[..k]);
  }

  lemma AfterPrefix(w: World, a: seq<Event>, b: seq<Event>, j: nat)
    requires j <= |b|
    ensures After(w, (a + b)[..|a| + j]) == After(After(w, a), b[..j])
  {
    assert (a + b)[..|a| + j] == a + b[..j];
    AfterConcat(w, a, b[..j]);
  }

  /** If the agents, builds and the user do the same again, a phase over clean repositories that is cut off anywhere and
      resumed has the fates of the uninterrupted one, but for the stories it skips. */
  lemma CrashAnywhere(repos: seq<Repo>, runs: nat -> StoryRun, autoApprove: bool, k: nat, fates: seq<Fate>,
                      again: seq<Fate>)
    requires Clean(repos) && k <= |PhaseEvents(repos, runs, 0, |fates|, autoApprove)|
    requires var w := After(Fresh(repos), PhaseEvents(repos, runs, 0, |fates|, autoApprove)[..k]);
             Resumption(repos, w.repos, runs, NextStory(w.saved), autoApprove, fates, again)
    ensures var w := After(Fresh(repos), PhaseEvents(repos, runs, 0, |fates|, autoApprove)[..k]);
            again == Resumed(fates, NextStory(w.saved))
  {
    var w := After(Fresh(repos), PhaseEvents(repos, runs, 0, |fates|, autoApprove)[..k]);
    CrashIsHarmless(repos, runs, |fates|, autoApprove, k);
    ResumedFatesIff(repos, w.repos, runs, NextStory(w.saved), autoApprove, fates, again);
  }

  /** JUDGE approves the story at once, which writes nothing; its builds would fail. */
  ghost predicate WritesNothing(run: StoryRun) {
    run.judge(1).verdict == Approved && SessionMoments(run) == SessionEnd(run) && !BuildsPass(run)
    && forall m :: run.writes(m) == []
  }

  lemma FateOfNothing(repos: seq<Repo>, run: StoryRun, i: nat)
    requires WritesNothing(run)
    ensures FateOf(repos, run, i, true) == if Clean(repos) then Fate(Approved, false) else Fate(Rejected, true)
  {
    NoWrites(run, |repos|, SessionEnd(run));
    ProposedIff(repos, run, i);
  }

  lemma NoWrites(run: StoryRun, n: nat, b: nat)
    requires forall m :: run.writes(m) == []
    ensures !AnyText(run, n, 0, b)
  {
    forall r: nat | r < n ensures Texts(run, r, 0, b) == [] {
      NoTexts(run, r, b);
    }
  }

  lemma {:induction false} NoTexts(run: StoryRun, r: nat, b: nat)
    requires forall m :: run.writes(m) == []
    ensures Texts(run, r, 0, b) == []
  {
    if b > 0 {
      NoTexts(run, r, b - 1);
    }
  }

  /** A first attempt at the only story writes something and crashes; the second writes nothing. Without the crash the
      story is approved and reported once, with it the leftovers are built, and it is rejected and reported twice. */
  method LeftoversRejectStory() returns (success: bool, resumed: bool, left: seq<Repo>)
    ensures success && !resumed
    ensures var events := [Started(0)] + [Wrote(0, [[7]])] + [Crashed];
            Legal(Fresh([Repo([], [])]), events, 1) && After(Fresh([Repo([], [])]), events) == Fresh(left)
  {
    var repos := [Repo([], [])];
    left := [Repo([Edit(0, 7)], [])];
    CrashedAttempt(repos, left);
    var run := StoryRun(_ => Judgement(Approved, 0, 100), _ => false, _ => false, _ => Approve, _ => true, _ => []);
    assert Quiet(run.throws, |StoryScript(run.judge)|);
    success := DevelopNothing(repos, run);
    resumed := DevelopNothing(left, run);
    assert left[0].dirty != [];
  }

  method DevelopNothing(repos: seq<Repo>, run: StoryRun) returns (success: bool)
    requires WritesNothing(run)
    ensures success == Clean(repos)
  {
    var runs := (i: nat) => run;
    var now, results, commits;
    ghost var fates, events;
    now, success, results, commits, fates, events := ExecuteDeveloperPhase(repos, 1, None, runs, true);
    OneStoryOfNothing(repos, runs, fates);
    OneFate(fates);
  }

  lemma OneStoryOfNothing(repos: seq<Repo>, runs: nat -> StoryRun, fates: seq<Fate>)
    requires WritesNothing(runs(0)) && |fates| == 1 && Fated(fates, repos, runs, 0, true)
    ensures fates[0] == if Clean(repos) then Fate(Approved, false) else Fate(Rejected, true)
  {
    assert fates[0] == StoryFate(repos, runs, 0, 0, true);
    FateOfNothing(repos, runs(0), 0);
  }

  lemma OneFate(fates: seq<Fate>)
    requires |fates| == 1
    ensures AllApproved(Reports(fates)) <==> fates[0].verdict == Approved
  {
    SuccessExact(fates);
  }

  lemma CrashedAttempt(repos: seq<Repo>, left: seq<Repo>)
    requires repos == [Repo([], [])] && left == [Repo([Edit(0, 7)], [])]
    ensures var events := [Started(0)] + [Wrote(0, [[7]])] + [Crashed];
            Legal(Fresh(repos), events, 1) && After(Fresh(repos), events) == Fresh(left)
  {
    var w := Fresh(repos);
    LegalNext(w, [], Started(0), 1);
    assert [] + [Started(0)] == [Started(0)];
    assert Apply(repos, Started(0)) == repos;
    LegalNext(w, [Started(0)], Wrote(0, [[7]]), 1);
    assert Apply(repos, Wrote(0, [[7]]))[0] == left[0];
    assert Apply(repos, Wrote(0, [[7]])) == left;
    LegalNext(w, [Started(0)] + [Wrote(0, [[7]])], Crashed, 1);
    assert Apply(left, Crashed) == left;
  }

  /** A story that JUDGE decides and that nothing interferes with. */
  function PlainRun(verdict: Verdict): StoryRun {
    StoryRun(_ => Judgement(verdict, 0, 0), _ => false, _ => true, _ => Approve, _ => true, _ => [])
  }

  lemma PlainVerdict(repos: seq<Repo>, verdict: Verdict, i: nat)
    requires verdict != NeedsRevision
    ensures FinalVerdict(repos, PlainRun(verdict), i, true) == verdict
  {
  }

  /** JUDGE rejects the first story and approves every other. */
  function FirstRejected(): nat -> StoryRun {
    i => PlainRun(if i == 0 then Rejected else Approved)
  }

  lemma FirstRejectedFates(repos: seq<Repo>, start: nat, fates: seq<Fate>)
    requires |fates| == 2 && start <= 1 && Fated(fates, repos, FirstRejected(), start, true)
    ensures AllApproved(Reports(fates)) <==> start == 1
  {
    SuccessExact(fates);
    assert fates[0] == StoryFate(repos, FirstRejected(), start, 0, true);
    assert fates[1] == StoryFate(repos, FirstRejected(), start, 1, true);
    PlainVerdict(repos, Rejected, 0);
    PlainVerdict(if start == 1 then repos else Cleaned(repos), Approved, 1);
  }

  /** JUDGE rejects the first of two stories and its index is stored. The phase that goes on fails; one that crashes
      there and is resumed succeeds. */
  method RejectionForgotten(repos: seq<Repo>) returns (success: bool, resumed: bool)
    ensures !success && resumed
  {
    var left := PhaseOutcome(repos, FirstRejected(), 0, 1, true);
    var now, results, commits;
    ghost var fates, events;
    now, success, results, commits, fates, events := ExecuteDeveloperPhase(repos, 2, None, FirstRejected(), true);
    FirstRejectedFates(repos, 0, fates);
    now, resumed, results, commits, fates, events := ExecuteDeveloperPhase(left, 2, Some(0), FirstRejected(), true);
    FirstRejectedFates(left, 1, fates);
  }
}

/**
  The GitHub publisher: stage a coordination pull request, reconcile, release the Producer gate.
  Every API call may lose its answer before or after the server acts, and the publisher's memory
  may be lost between attempts; the server's pull requests and statuses stay.
 */
module Publisher {
  import opened Wrappers
  import opened Models
  import opened Publication

  datatype Pull = Pull(head: string, base: string, url: string, merged: bool)

  /** A commit status under the one context `lineagetx/safe-to-contract`. */
  datatype Status = Status(sha: string, state: string, target: string)

  datatype Hub = Hub(prs: seq<Pull>, statuses: seq<Status>)

  datatype Memory = Memory(
    requests: map<string, Request>, stages: map<string, Stage>, results: map<string, Publication>)

  datatype State = State(hub: Hub, memory: Memory)

  datatype Fault = NoFault | LostBefore | LostAfter

  /** What one attempt meets outside: which answers are lost, the URL GitHub picks, and the clock. */
  datatype Weather = Weather(
    find: Fault, create: Fault, read: Fault, post: Fault, url: string, stagedAt: string, releasedAt: string)

  datatype Scope = Scope(coordination: string, producer: string)

  datatype PublicationError =
    | NetworkError
    | ScopeError
    | RetryMismatch
    | InvalidReceipts
    | UnstagedRequest
    | GateElsewhere

  const FORGOTTEN := Memory(map[], map[], map[])

  const SUCCESS := "success"

  // ---- the server ----------------------------------------------------------------

  predicate HeadBase(pr: Pull, head: string, base: string) { pr.head == head && pr.base == base }

  function FindPull(prs: seq<Pull>, head: string, base: string): (r: Option<Pull>)
    ensures r.Some? ==> r.value in prs && HeadBase(r.value, head, base)
    ensures r.None? ==> forall i :: 0 <= i < |prs| ==> !HeadBase(prs[i], head, base)
  {
    if prs == [] then None
    else if HeadBase(prs[0], head, base) then Some(prs[0])
    else FindPull(prs[1..], head, base)
  }

  /** The latest status of a commit. */
  function StatusOf(statuses: seq<Status>, sha: string): (r: Option<Status>)
    ensures r.Some? ==> r.value in statuses && r.value.sha == sha
    ensures r.None? ==> forall i :: 0 <= i < |statuses| ==> statuses[i].sha != sha
  {
    if statuses == [] then None
    else if statuses[|statuses| - 1].sha == sha then Some(statuses[|statuses| - 1])
    else StatusOf(statuses[..|statuses| - 1], sha)
  }

  predicate IsDigit(c: char) { '0' <= c <= '9' }

  /** A pull request page of the fixed coordination repository. */
  predicate IsPullUrl(repository: string, url: string) {
    var prefix := "https://github.com/" + repository + "/pull/";
    && prefix <= url
    && |prefix| < |url|
    && forall i :: |prefix| <= i < |url| ==> IsDigit(url[i])
  }

  // ---- receipts --------------------------------------------------------------------

  lemma NotBlank(s: string, i: nat)
    requires i < |s| && s[i] !in {' ', '\t', '\n', '\r'}
    ensures !IsBlank(s)
  {
    if i > 0 { NotBlank(s[1..], i - 1); }
  }

  function CandidateReceipt(m: string, c: Candidate, at: string): (r: CoordinationReceipt)
    requires IsCommitSha(c.sha)
    ensures r.reference == "refs/heads/" + c.branch && r.commitSha == c.sha
    ensures r.migrationId == m && r.kind.CandidateCommit?
  {
    NotBlank("refs/heads/" + c.branch, 0);
    CoordinationRecord(m, CandidateCommit, "refs/heads/" + c.branch, at, c.sha, "")
  }

  function CandidateReceipts(request: Request, at: string): (r: seq<CoordinationReceipt>)
    requires request.WellFormed()
    ensures |r| == 3
    ensures forall i :: 0 <= i < 3 ==> r[i] == CandidateReceipt(request.intent.migrationId, request.candidates[i], at)
  {
    seq(3, i requires 0 <= i < 3 => CandidateReceipt(request.intent.migrationId, request.candidates[i], at))
  }

  function PullReceipt(m: string, repository: string, url: string, at: string): (r: CoordinationReceipt)
    requires IsPullUrl(repository, url)
    ensures r.kind.CoordinatedPr? && r.migrationId == m && r.reference == url
  {
    assert url[0] == ("https://github.com/" + repository + "/pull/")[0];
    NotBlank(url, 0);
    CoordinationRecord(m, CoordinatedPr, url, at, "", url)
  }

  function GateReceipt(intent: Intent, pr: CoordinationReceipt, at: string): (r: CoordinationReceipt)
    ensures r.kind.ProducerGateReleased? && r.migrationId == intent.migrationId && r.evidenceUrl == pr.reference
  {
    var reference := "check-run:lineagetx/safe-to-contract:" + intent.producerHeadSha;
    NotBlank(reference, 0);
    CoordinationRecord(intent.migrationId, ProducerGateReleased, reference, at, "", pr.reference)
  }

  // ---- one attempt -----------------------------------------------------------------

  function KeepStage(s: State, scope: Scope, request: Request, pr: Pull, w: Weather)
    : (State, Result<Stage, PublicationError>)
    requires request.WellFormed()
  {
    var m := request.intent.migrationId;
    if !IsPullUrl(scope.coordination, pr.url) || pr.merged then (s, Failure(ScopeError))
    else
      var stage := Stage(CandidateReceipts(request, w.stagedAt),
                         PullReceipt(m, scope.coordination, pr.url, w.stagedAt));
      if !stage.Validates(request) then (s, Failure(InvalidReceipts))
      else
        (s.(memory := s.memory.(requests := s.memory.requests[m := request], stages := s.memory.stages[m := stage])),
         Success(stage))
  }

  function StageStep(s: State, scope: Scope, request: Request, w: Weather): (State, Result<Stage, PublicationError>)
    requires request.WellFormed()
  {
    var m := request.intent.migrationId;
    if request.intent.producerRepository != scope.producer then (s, Failure(ScopeError))
    else if m in s.memory.requests && s.memory.requests[m] != request then (s, Failure(RetryMismatch))
    else if m in s.memory.stages then (s, Success(s.memory.stages[m]))
    else if !w.find.NoFault? then (s, Failure(NetworkError))
    else
      match FindPull(s.hub.prs, request.head, request.base)
      case Some(pr) => KeepStage(s, scope, request, pr, w)
      case None =>
        if w.create.LostBefore? then (s, Failure(NetworkError))
        else
          var pr := Pull(request.head, request.base, w.url, false);
          var t := s.(hub := s.hub.(prs := s.hub.prs + [pr]));
          if w.create.LostAfter? then (t, Failure(NetworkError)) else KeepStage(t, scope, request, pr, w)
  }

  function KeepResult(s: State, request: Request, stage: Stage, w: Weather)
    : (State, Result<Publication, PublicationError>)
  {
    var result := Publication(stage.candidates, stage.pr, GateReceipt(request.intent, stage.pr, w.releasedAt));
    if !result.Validates(request) then (s, Failure(InvalidReceipts))
    else
      (s.(memory := s.memory.(results := s.memory.results[request.intent.migrationId := result])), Success(result))
  }

  function ReconcileStep(s: State, request: Request, stage: Stage, w: Weather)
    : (State, Result<Option<Publication>, PublicationError>)
  {
    var m := request.intent.migrationId;
    if !stage.Validates(request) then (s, Failure(InvalidReceipts))
    else if m in s.memory.results then
      (s, if s.memory.results[m].Validates(request) then Success(Some(s.memory.results[m]))
          else Failure(InvalidReceipts))
    else if !w.read.NoFault? then (s, Failure(NetworkError))
    else
      var status := StatusOf(s.hub.statuses, request.intent.producerHeadSha);
      if status.None? || status.value.state != SUCCESS then (s, Success(None))
      else if status.value.target != stage.pr.reference then (s, Failure(GateElsewhere))
      else
        var kept := KeepResult(s, request, stage, w);
        (kept.0, match kept.1 case Success(pub) => Success(Some(pub)) case Failure(e) => Failure(e))
  }

  function ReleaseStep(s: State, request: Request, stage: Stage, w: Weather)
    : (State, Result<Publication, PublicationError>)
  {
    var m := request.intent.migrationId;
    if !stage.Validates(request) then (s, Failure(InvalidReceipts))
    else if m !in s.memory.stages || s.memory.stages[m] != stage then (s, Failure(UnstagedRequest))
    else if m in s.memory.results then
      (s, if s.memory.results[m].Validates(request) then Success(s.memory.results[m]) else Failure(InvalidReceipts))
    else if w.post.LostBefore? then (s, Failure(NetworkError))
    else
      var status := Status(request.intent.producerHeadSha, SUCCESS, stage.pr.reference);
      var t := s.(hub := s.hub.(statuses := s.hub.statuses + [status]));
      if w.post.LostAfter? then (t, Failure(NetworkError)) else KeepResult(t, request, stage, w)
  }

  function PublishStep(s: State, scope: Scope, request: Request, w: Weather)
    : (State, Result<Publication, PublicationError>)
    requires request.WellFormed()
  {
    match StageStep(s, scope, request, w)
    case (t, Failure(e)) => (t, Failure(e))
    case (t, Success(stage)) =>
      match ReconcileStep(t, request, stage, w)
      case (u, Failure(e)) => (u, Failure(e))
      case (u, Success(Some(pub))) => (u, Success(pub))
      case (u, Success(None)) => ReleaseStep(u, request, stage, w)
  }

  // ---- the classes -------------------------------------------------------------------

  class GitHub {
    var prs: seq<Pull>
    var statuses: seq<Status>

    ghost function Contents(): Hub
      reads this
    {
      Hub(prs, statuses)
    }

    constructor ()
      ensures Contents() == Hub([], [])
    {
      prs, statuses := [], [];
    }

    method FindPullRequest(head: string, base: string, fault: Fault) returns (r: Result<Option<Pull>, PublicationError>)
      ensures r == if fault.NoFault? then Success(FindPull(prs, head, base)) else Failure(NetworkError)
    {
      if !fault.NoFault? { return Failure(NetworkError); }
      r := Success(FindPull(prs, head, base));
    }

    method CreatePullRequest(head: string, base: string, url: string, fault: Fault)
      returns (r: Result<Pull, PublicationError>)
      modifies this`prs
      ensures prs == if fault.LostBefore? then old(prs) else old(prs) + [Pull(head, base, url, false)]
      ensures r == if fault.NoFault? then Success(Pull(head, base, url, false)) else Failure(NetworkError)
    {
      if fault.LostBefore? { return Failure(NetworkError); }
      prs := prs + [Pull(head, base, url, false)];
      if fault.LostAfter? { return Failure(NetworkError); }
      r := Success(prs[|prs| - 1]);
    }

    method GetCommitStatus(sha: string, fault: Fault) returns (r: Result<Option<Status>, PublicationError>)
      ensures r == if fault.NoFault? then Success(StatusOf(statuses, sha)) else Failure(NetworkError)
    {
      if !fault.NoFault? { return Failure(NetworkError); }
      r := Success(StatusOf(statuses, sha));
    }

    method CreateCommitStatus(sha: string, target: string, fault: Fault) returns (r: Result<(), PublicationError>)
      modifies this`statuses
      ensures statuses == if fault.LostBefore? then old(statuses) else old(statuses) + [Status(sha, SUCCESS, target)]
      ensures r == if fault.NoFault? then Success(()) else Failure(NetworkError)
    {
      if fault.LostBefore? { return Failure(NetworkError); }
      statuses := statuses + [Status(sha, SUCCESS, target)];
      if fault.LostAfter? { return Failure(NetworkError); }
      r := Success(());
    }
  }

  class FixedGitHubPublisher {
    const api: GitHub
    const scope: Scope
    var requests: map<string, Request>
    var stages: map<string, Stage>
    var results: map<string, Publication>

    ghost function Contents(): State
      reads this, api
    {
      State(api.Contents(), Memory(requests, stages, results))
    }

    constructor (api: GitHub, scope: Scope)
      ensures this.api == api && this.scope == scope
      ensures Contents() == State(api.Contents(), FORGOTTEN)
    {
      this.api, this.scope := api, scope;
      requests, stages, results := map[], map[], map[];
    }

    method StagePullRequest(request: Request, w: Weather) returns (r: Result<Stage, PublicationError>)
      requires request.WellFormed()
      modifies this, api
      ensures (Contents(), r) == StageStep(old(Contents()), scope, request, w)
    {
      var m := request.intent.migrationId;
      if request.intent.producerRepository != scope.producer { return Failure(ScopeError); }
      if m in requests && requests[m] != request { return Failure(RetryMismatch); }
      if m in stages { return Success(stages[m]); }
      var found := api.FindPullRequest(request.head, request.base, w.find);
      if found.Failure? { return Failure(found.error); }
      var pr: Pull;
      if found.value.Some? {
        pr := found.value.value;
      } else {
        var created := api.CreatePullRequest(request.head, request.base, w.url, w.create);
        if created.Failure? { return Failure(created.error); }
        pr := created.value;
      }
      if !IsPullUrl(scope.coordination, pr.url) || pr.merged { return Failure(ScopeError); }
      var stage := Stage(
        CandidateReceipts(request, w.stagedAt), PullReceipt(m, scope.coordination, pr.url, w.stagedAt));
      if !stage.Validates(request) { return Failure(InvalidReceipts); }
      requests := requests[m := request];
      stages := stages[m := stage];
      r := Success(stage);
    }

    method ResultFromStage(request: Request, stage: Stage, w: Weather)
      returns (r: Result<Publication, PublicationError>)
      modifies this
      ensures (Contents(), r) == KeepResult(old(Contents()), request, stage, w)
    {
      var result := Publication(stage.candidates, stage.pr, GateReceipt(request.intent, stage.pr, w.releasedAt));
      if !result.Validates(request) { return Failure(InvalidReceipts); }
      results := results[request.intent.migrationId := result];
      r := Success(result);
    }

    method Reconcile(request: Request, stage: Stage, w: Weather)
      returns (r: Result<Option<Publication>, PublicationError>)
      modifies this
      ensures (Contents(), r) == ReconcileStep(old(Contents()), request, stage, w)
    {
      var m := request.intent.migrationId;
      if !stage.Validates(request) { return Failure(InvalidReceipts); }
      if m in results {
        if !results[m].Validates(request) { return Failure(InvalidReceipts); }
        return Success(Some(results[m]));
      }
      var status := api.GetCommitStatus(request.intent.producerHeadSha, w.read);
      if status.Failure? { return Failure(status.error); }
      if status.value.None? || status.value.value.state != SUCCESS { return Success(None); }
      if status.value.value.target != stage.pr.reference { return Failure(GateElsewhere); }
      var result := ResultFromStage(request, stage, w);
      r := match result case Success(pub) => Success(Some(pub)) case Failure(e) => Failure(e);
    }

    method ReleaseGate(request: Request, stage: Stage, w: Weather)
      returns (r: Result<Publication, PublicationError>)
      modifies this, api
      ensures (Contents(), r) == ReleaseStep(old(Contents()), request, stage, w)
    {
      var m := request.intent.migrationId;
      if !stage.Validates(request) { return Failure(InvalidReceipts); }
      if m !in stages || stages[m] != stage { return Failure(UnstagedRequest); }
      if m in results {
        if !results[m].Validates(request) { return Failure(InvalidReceipts); }
        return Success(results[m]);
      }
      var status := api.CreateCommitStatus(request.intent.producerHeadSha, stage.pr.reference, w.post);
      if status.Failure? { return Failure(status.error); }
      r := ResultFromStage(request, stage, w);
    }

    method Publish(request: Request, w: Weather) returns (r: Result<Publication, PublicationError>)
      requires request.WellFormed()
      modifies this, api
      ensures (Contents(), r) == PublishStep(old(Contents()), scope, request, w)
    {
      hide StageStep, ReconcileStep, ReleaseStep;
      var stage := StagePullRequest(request, w);
      if stage.Failure? { return Failure(stage.error); }
      var reconciled := Reconcile(request, stage.value, w);
      if reconciled.Failure? { return Failure(reconciled.error); }
      if reconciled.value.Some? { return Success(reconciled.value.value); }
      r := ReleaseGate(request, stage.value, w);
    }
  }

  // ---- any number of attempts ----------------------------------------------------------

  /** A publish call, by a publisher that may have been restarted since the last one. */
  datatype Attempt = Attempt(restarted: bool, request: Request, weather: Weather)

  function Restarted(s: State, restarted: bool): State {
    if restarted then s.(memory := FORGOTTEN) else s
  }

  function AfterAttempts(s: State, scope: Scope, attempts: seq<Attempt>): State
    requires forall i :: 0 <= i < |attempts| ==> attempts[i].request.WellFormed()
    decreases |attempts|
  {
    if attempts == [] then s
    else
      var a := attempts[0];
      AfterAttempts(PublishStep(Restarted(s, a.restarted), scope, a.request, a.weather).0, scope, attempts[1..])
  }

  /** No two pull requests for one head and base; no two statuses, all successes, for one commit. */
  ghost predicate Once(hub: Hub) {
    && (forall i, j :: 0 <= i < j < |hub.prs| ==> !HeadBase(hub.prs[i], hub.prs[j].head, hub.prs[j].base))
    && (forall i, j :: 0 <= i < j < |hub.statuses| ==> hub.statuses[i].sha != hub.statuses[j].sha)
    && (forall i :: 0 <= i < |hub.statuses| ==> hub.statuses[i].state == SUCCESS)
  }

  ghost predicate Opened(hub: Hub, request: Request, url: string) {
    exists pr :: pr in hub.prs && HeadBase(pr, request.head, request.base) && pr.url == url
  }

  /** What the publisher remembers is what the server has. */
  ghost predicate Faithful(s: State) {
    && (forall m :: m in s.memory.stages ==>
          && m in s.memory.requests
          && s.memory.requests[m].intent.migrationId == m
          && s.memory.stages[m].Validates(s.memory.requests[m])
          && Opened(s.hub, s.memory.requests[m], s.memory.stages[m].pr.reference))
    && (forall m :: m in s.memory.results ==>
          && m in s.memory.stages
          && m in s.memory.requests
          && s.memory.results[m].Validates(s.memory.requests[m])
          && s.memory.results[m].pr == s.memory.stages[m].pr
          && Status(s.memory.requests[m].intent.producerHeadSha, SUCCESS,
              s.memory.results[m].pr.reference) in s.hub.statuses)
  }

  ghost predicate Sound(s: State) { Once(s.hub) && Faithful(s) }

  /** Nothing on the server goes away. */
  predicate HubGrows(a: Hub, b: Hub) { a.prs <= b.prs && a.statuses <= b.statuses }

  /** `stage` is what this publisher staged for `request`. */
  ghost predicate StagedAs(s: State, request: Request, stage: Stage) {
    var m := request.intent.migrationId;
    m in s.memory.stages && s.memory.stages[m] == stage && m in s.memory.requests && s.memory.requests[m] == request
  }

  /** `pub` is valid, its pull request is open on the server, and its status is posted. */
  ghost predicate Published(hub: Hub, request: Request, pub: Publication) {
    && pub.Validates(request)
    && Opened(hub, request, pub.pr.reference)
    && Status(request.intent.producerHeadSha, SUCCESS, pub.pr.reference) in hub.statuses
  }

  lemma KeptStageValidates(request: Request, repository: string, url: string, at: string)
    requires request.WellFormed() && IsPullUrl(repository, url)
    ensures var pr := PullReceipt(request.intent.migrationId, repository, url, at);
            Stage(CandidateReceipts(request, at), pr).Validates(request)
  {
    hide IsPullUrl, IsCommitSha;
    var receipts := CandidateReceipts(request, at);
    assert forall i :: 0 <= i < 3 ==>
      && receipts[i].reference == "refs/heads/" + request.candidates[i].branch
      && receipts[i].commitSha == request.candidates[i].sha;
    assert (set i | 0 <= i < |receipts| :: (receipts[i].reference, receipts[i].commitSha)) == request.Refs();
  }

  lemma OpenedMore(a: Hub, b: Hub, request: Request, url: string)
    requires Opened(a, request, url) && HubGrows(a, b)
    ensures Opened(b, request, url)
  {
    var pr :| pr in a.prs && HeadBase(pr, request.head, request.base) && pr.url == url;
    assert pr in b.prs;
  }

  lemma FaithfulMore(s: State, hub: Hub)
    requires Faithful(s) && HubGrows(s.hub, hub)
    ensures Faithful(s.(hub := hub))
  {
    hide Opened, HubGrows;
    forall m | m in s.memory.stages ensures Opened(hub, s.memory.requests[m], s.memory.stages[m].pr.reference) {
      OpenedMore(s.hub, hub, s.memory.requests[m], s.memory.stages[m].pr.reference);
    }
    PostedMore(s.hub, hub);
  }

  lemma PostedMore(a: Hub, b: Hub)
    requires HubGrows(a, b)
    ensures forall st :: st in a.statuses ==> st in b.statuses
  {}

  function Remember(s: State, request: Request, stage: Stage): State {
    var m := request.intent.migrationId;
    s.(memory := s.memory.(requests := s.memory.requests[m := request], stages := s.memory.stages[m := stage]))
  }

  lemma RememberFaithful(s: State, request: Request, stage: Stage)
    requires Faithful(s) && request.intent.migrationId !in s.memory.stages
    requires stage.Validates(request) && Opened(s.hub, request, stage.pr.reference)
    ensures Faithful(Remember(s, request, stage)) && StagedAs(Remember(s, request, stage), request, stage)
  {
    hide Opened, Stage.Validates;
  }

  lemma KeepStageSound(s: State, scope: Scope, request: Request, pr: Pull, w: Weather)
    requires Sound(s) && request.WellFormed() && request.intent.migrationId !in s.memory.stages
    requires pr in s.hub.prs && HeadBase(pr, request.head, request.base)
    ensures var (t, r) := KeepStage(s, scope, request, pr, w);
            && Sound(t) && t.hub == s.hub
            && (r.Success? ==> StagedAs(t, request, r.value) && r.value.pr.reference == pr.url)
            && (r.Success? <==> IsPullUrl(scope.coordination, pr.url) && !pr.merged)
  {
    hide IsPullUrl, IsCommitSha, Once, Faithful, StagedAs, Stage.Validates;
    assert Opened(s.hub, request, pr.url);
    if IsPullUrl(scope.coordination, pr.url) && !pr.merged {
      var m := request.intent.migrationId;
      var stage := Stage(CandidateReceipts(request, w.stagedAt),
                         PullReceipt(m, scope.coordination, pr.url, w.stagedAt));
      KeptStageValidates(request, scope.coordination, pr.url, w.stagedAt);
      RememberFaithful(s, request, stage);
      assert KeepStage(s, scope, request, pr, w) == (Remember(s, request, stage), Success(stage));
    }
  }

  /** Staging finds the open pull request, or creates the only one. */
  lemma StageSound(s: State, scope: Scope, request: Request, w: Weather)
    requires Sound(s) && request.WellFormed()
    ensures var (t, r) := StageStep(s, scope, request, w);
            && Sound(t) && HubGrows(s.hub, t.hub) && t.hub.statuses == s.hub.statuses
            && (r.Success? ==> StagedAs(t, request, r.value))
  {
    hide KeepStage, Faithful, IsCommitSha;
    var m := request.intent.migrationId;
    if m in s.memory.stages {
      RememberedStage(s, m);
    } else {
      match FindPull(s.hub.prs, request.head, request.base)
      case Some(pr) => KeepStageSound(s, scope, request, pr, w);
      case None =>
        var pr := Pull(request.head, request.base, w.url, false);
        var t := s.(hub := s.hub.(prs := s.hub.prs + [pr]));
        FaithfulMore(s, t.hub);
        assert pr == t.hub.prs[|s.hub.prs|];
        KeepStageSound(t, scope, request, pr, w);
    }
  }

  lemma RememberedStage(s: State, m: string)
    requires Faithful(s) && m in s.memory.stages
    ensures m in s.memory.requests && StagedAs(s, s.memory.requests[m], s.memory.stages[m])
  {}

  lemma KeepResultSound(s: State, request: Request, stage: Stage, w: Weather)
    requires Sound(s) && StagedAs(s, request, stage)
    requires Status(request.intent.producerHeadSha, SUCCESS, stage.pr.reference) in s.hub.statuses
    ensures var (t, r) := KeepResult(s, request, stage, w);
            Sound(t) && t.hub == s.hub && r.Success? && Published(t.hub, request, r.value) && r.value.pr == stage.pr
  {
    hide Once, Opened;
  }

  lemma AllSuccess(hub: Hub, st: Status)
    requires Once(hub) && st in hub.statuses
    ensures st.state == SUCCESS
  {}

  lemma RememberedResult(s: State, request: Request, stage: Stage)
    requires Faithful(s) && StagedAs(s, request, stage)
    ensures stage.Validates(request) && Opened(s.hub, request, stage.pr.reference)
    ensures var m := request.intent.migrationId;
            m in s.memory.results ==>
              Published(s.hub, request, s.memory.results[m]) && s.memory.results[m].pr == stage.pr
  {
    hide Opened;
  }

  lemma ReconcileSound(s: State, request: Request, stage: Stage, w: Weather)
    requires Sound(s) && StagedAs(s, request, stage)
    ensures var (t, r) := ReconcileStep(s, request, stage, w);
            && Sound(t) && t.hub == s.hub && StagedAs(t, request, stage)
            && (r.Success? && r.value.Some? ==> Published(t.hub, request, r.value.value))
            && (r == Success(None) ==>
                  t == s && request.intent.migrationId !in s.memory.results
                  && StatusOf(s.hub.statuses, request.intent.producerHeadSha).None?)
  {
    hide Faithful, Once, KeepResult, Published, Opened;
    RememberedResult(s, request, stage);
    var status := StatusOf(s.hub.statuses, request.intent.producerHeadSha);
    if status.Some? {
      AllSuccess(s.hub, status.value);
      if request.intent.migrationId !in s.memory.results && status.value.target == stage.pr.reference {
        KeepResultSound(s, request, stage, w);
        KeepResultMemory(s, request, stage, w);
        assert StagedAs(KeepResult(s, request, stage, w).0, request, stage);
      }
    }
  }

  lemma KeepResultMemory(s: State, request: Request, stage: Stage, w: Weather)
    ensures KeepResult(s, request, stage, w).0.memory.stages == s.memory.stages
    ensures KeepResult(s, request, stage, w).0.memory.requests == s.memory.requests
  {}

  /** The gate is posted only where no status stands. */
  lemma ReleaseSound(s: State, request: Request, stage: Stage, w: Weather)
    requires Sound(s) && StagedAs(s, request, stage)
    requires request.intent.migrationId !in s.memory.results
    requires StatusOf(s.hub.statuses, request.intent.producerHeadSha).None?
    ensures var (t, r) := ReleaseStep(s, request, stage, w);
            && Sound(t) && HubGrows(s.hub, t.hub)
            && (r.Success? ==> Published(t.hub, request, r.value))
  {
    hide Faithful, KeepResult, Published, Opened;
    RememberedResult(s, request, stage);
    var status := Status(request.intent.producerHeadSha, SUCCESS, stage.pr.reference);
    var t := s.(hub := s.hub.(statuses := s.hub.statuses + [status]));
    FaithfulMore(s, t.hub);
    assert status == t.hub.statuses[|s.hub.statuses|];
    KeepResultSound(t, request, stage, w);
  }

  lemma PublishSound(s: State, scope: Scope, request: Request, w: Weather)
    requires Sound(s) && request.WellFormed()
    ensures var (t, r) := PublishStep(s, scope, request, w);
            && Sound(t) && HubGrows(s.hub, t.hub)
            && (r.Success? ==> Published(t.hub, request, r.value))
  {
    hide Sound, StageStep, ReconcileStep, ReleaseStep, StagedAs, Published;
    StageSound(s, scope, request, w);
    var (t, staged) := StageStep(s, scope, request, w);
    if staged.Success? {
      ReconcileSound(t, request, staged.value, w);
      if ReconcileStep(t, request, staged.value, w).1 == Success(None) {
        ReleaseSound(t, request, staged.value, w);
      }
    }
  }

  lemma {:induction false} AttemptsSound(s: State, scope: Scope, attempts: seq<Attempt>)
    requires forall i :: 0 <= i < |attempts| ==> attempts[i].request.WellFormed()
    requires Sound(s)
    ensures Sound(AfterAttempts(s, scope, attempts))
    decreases |attempts|
  {
    if attempts != [] {
      hide Sound, PublishStep;
      var a := attempts[0];
      RestartSound(s, a.restarted);
      PublishSound(Restarted(s, a.restarted), scope, a.request, a.weather);
      AttemptsSound(PublishStep(Restarted(s, a.restarted), scope, a.request, a.weather).0, scope, attempts[1..]);
    }
  }

  lemma RestartSound(s: State, restarted: bool)
    requires Sound(s)
    ensures Sound(Restarted(s, restarted))
  {}

  /** The server and a publisher after some attempts, of whatever requests, failing and restarting as they like. */
  ghost predicate ReachablePublisher(s: State, scope: Scope) {
    exists attempts: seq<Attempt> ::
      && (forall i :: 0 <= i < |attempts| ==> attempts[i].request.WellFormed())
      && s == AfterAttempts(State(Hub([], []), FORGOTTEN), scope, attempts)
  }

  lemma ReachablePublisherSound(s: State, scope: Scope)
    requires ReachablePublisher(s, scope)
    ensures Sound(s)
  {
    hide AfterAttempts;
    var attempts: seq<Attempt> :|
      && (forall i :: 0 <= i < |attempts| ==> attempts[i].request.WellFormed())
      && s == AfterAttempts(State(Hub([], []), FORGOTTEN), scope, attempts);
    AttemptsSound(State(Hub([], []), FORGOTTEN), scope, attempts);
  }

  /** Publication is effectively once: one pull request per head and base, one status per commit. */
  lemma EffectivelyOnce(s: State, scope: Scope)
    requires ReachablePublisher(s, scope)
    ensures forall i, j :: 0 <= i < j < |s.hub.prs| ==> !HeadBase(s.hub.prs[i], s.hub.prs[j].head, s.hub.prs[j].base)
    ensures forall i, j :: 0 <= i < j < |s.hub.statuses| ==> s.hub.statuses[i].sha != s.hub.statuses[j].sha
  {
    hide ReachablePublisher;
    ReachablePublisherSound(s, scope);
  }

  /** What `publish` returns is valid, and the server holds exactly what it says. */
  lemma PublishedIsTrue(s: State, scope: Scope, request: Request, w: Weather)
    requires ReachablePublisher(s, scope) && request.WellFormed()
    ensures var (t, r) := PublishStep(s, scope, request, w);
            r.Success? ==> Published(t.hub, request, r.value)
  {
    hide ReachablePublisher, PublishStep, Published, Sound;
    ReachablePublisherSound(s, scope);
    PublishSound(s, scope, request, w);
  }

  // ---- nothing merged, nothing outside the scope -----------------------------------------

  /** Nothing is merged, and every stage and every status points at a pull request of the coordination repository. */
  ghost predicate Scoped(s: State, scope: Scope) {
    && (forall pr :: pr in s.hub.prs ==> !pr.merged)
    && (forall st :: st in s.hub.statuses ==> IsPullUrl(scope.coordination, st.target))
    && (forall m :: m in s.memory.stages ==> IsPullUrl(scope.coordination, s.memory.stages[m].pr.reference))
  }

  lemma StageScoped(s: State, scope: Scope, request: Request, w: Weather)
    requires Scoped(s, scope) && request.WellFormed()
    ensures var (t, r) := StageStep(s, scope, request, w);
            Scoped(t, scope) && (r.Success? ==> IsPullUrl(scope.coordination, r.value.pr.reference))
  {
    hide IsPullUrl, Stage.Validates, FindPull;
  }

  lemma ReconcileScoped(s: State, scope: Scope, request: Request, stage: Stage, w: Weather)
    requires Scoped(s, scope)
    ensures Scoped(ReconcileStep(s, request, stage, w).0, scope)
  {
    hide IsPullUrl, Stage.Validates, StatusOf;
  }

  lemma ReleaseScoped(s: State, scope: Scope, request: Request, stage: Stage, w: Weather)
    requires Scoped(s, scope) && IsPullUrl(scope.coordination, stage.pr.reference)
    ensures Scoped(ReleaseStep(s, request, stage, w).0, scope)
  {
    hide IsPullUrl, Stage.Validates;
  }

  lemma PublishScoped(s: State, scope: Scope, request: Request, w: Weather)
    requires Scoped(s, scope) && request.WellFormed()
    ensures Scoped(PublishStep(s, scope, request, w).0, scope)
  {
    hide Scoped, IsPullUrl, StageStep, ReconcileStep, ReleaseStep;
    StageScoped(s, scope, request, w);
    var (t, staged) := StageStep(s, scope, request, w);
    if staged.Success? {
      ReconcileScoped(t, scope, request, staged.value, w);
      ReleaseScoped(ReconcileStep(t, request, staged.value, w).0, scope, request, staged.value, w);
    }
  }

  lemma {:induction false} AttemptsScoped(s: State, scope: Scope, attempts: seq<Attempt>)
    requires forall i :: 0 <= i < |attempts| ==> attempts[i].request.WellFormed()
    requires Scoped(s, scope)
    ensures Scoped(AfterAttempts(s, scope, attempts), scope)
    decreases |attempts|
  {
    if attempts != [] {
      hide PublishStep, IsPullUrl;
      var a := attempts[0];
      PublishScoped(Restarted(s, a.restarted), scope, a.request, a.weather);
      AttemptsScoped(PublishStep(Restarted(s, a.restarted), scope, a.request, a.weather).0, scope, attempts[1..]);
    }
  }

  lemma ReachablePublisherScoped(s: State, scope: Scope)
    requires ReachablePublisher(s, scope)
    ensures Scoped(s, scope)
  {
    hide AfterAttempts, IsPullUrl;
    var attempts: seq<Attempt> :|
      && (forall i :: 0 <= i < |attempts| ==> attempts[i].request.WellFormed())
      && s == AfterAttempts(State(Hub([], []), FORGOTTEN), scope, attempts);
    AttemptsScoped(State(Hub([], []), FORGOTTEN), scope, attempts);
  }

  lemma OnlyPull(hub: Hub, request: Request, url: string)
    requires Once(hub) && Opened(hub, request, url)
    ensures FindPull(hub.prs, request.head, request.base).Some?
    ensures FindPull(hub.prs, request.head, request.base).value.url == url
  {}

  lemma OnlyStatus(hub: Hub, sha: string, target: string)
    requires Once(hub) && Status(sha, SUCCESS, target) in hub.statuses
    ensures StatusOf(hub.statuses, sha) == Some(Status(sha, SUCCESS, target))
  {
    assert StatusOf(hub.statuses, sha).Some?;
  }

  /** A restarted publisher with all answers arriving returns the same pull request and posts nothing new. */
  lemma RetryConverges(s: State, scope: Scope, request: Request, pub: Publication, w: Weather)
    requires ReachablePublisher(s, scope) && request.WellFormed() && Published(s.hub, request, pub)
    requires request.intent.producerRepository == scope.producer
    requires w.find.NoFault? && w.read.NoFault?
    ensures var (t, r) := PublishStep(Restarted(s, true), scope, request, w);
            r.Success? && r.value.pr.reference == pub.pr.reference && t.hub == s.hub
  {
    hide ReachablePublisher, IsPullUrl, Faithful, Once, Opened, IsCommitSha;
    ReachablePublisherSound(s, scope);
    ReachablePublisherScoped(s, scope);
    var u := Restarted(s, true);
    RestartSound(s, true);
    OnlyPull(s.hub, request, pub.pr.reference);
    OnlyStatus(s.hub, request.intent.producerHeadSha, pub.pr.reference);
    var pr := FindPull(s.hub.prs, request.head, request.base).value;
    hide KeepStage, KeepResult, Sound, StagedAs;
    KeepStageSound(u, scope, request, pr, w);
    var (t, staged) := KeepStage(u, scope, request, pr, w);
    assert StageStep(u, scope, request, w) == (t, staged);
    KeepStageMemory(u, scope, request, pr, w);
    hide StageStep;
    StagedValidates(t, request, staged.value);
    KeepResultSound(t, request, staged.value, w);
  }

  lemma KeepStageMemory(s: State, scope: Scope, request: Request, pr: Pull, w: Weather)
    requires request.WellFormed()
    ensures KeepStage(s, scope, request, pr, w).0.memory.results == s.memory.results
  {}

  lemma StagedValidates(s: State, request: Request, stage: Stage)
    requires Sound(s) && StagedAs(s, request, stage)
    ensures stage.Validates(request)
  {}
}

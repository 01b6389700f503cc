/** What a publisher is asked for, what it stages, and what it must return. */
module Publication {
  import opened Wrappers
  import opened Models

  datatype Candidate = Candidate(participantId: string, branch: string, sha: string)

  datatype Request = Request(intent: Intent, candidates: seq<Candidate>, head: string, base: string) {
    /** The constructor's demands that later checks lean on. */
    predicate WellFormed() {
      && |candidates| == 3
      && forall i :: 0 <= i < 3 ==> IsCommitSha(candidates[i].sha) && "lineagetx/" <= candidates[i].branch
    }

    function Refs(): set<(string, string)> {
      set i | 0 <= i < |candidates| :: ("refs/heads/" + candidates[i].branch, candidates[i].sha)
    }
  }

  datatype Stage = Stage(candidates: seq<CoordinationReceipt>, pr: CoordinationReceipt) {
    /** `PublicationStage.validate`. */
    predicate Validates(request: Request) {
      && |candidates| == |request.candidates|
      && (forall i :: 0 <= i < |candidates| ==> candidates[i].migrationId == request.intent.migrationId)
      && pr.migrationId == request.intent.migrationId
      && (forall i :: 0 <= i < |candidates| ==> candidates[i].kind.CandidateCommit?)
      && pr.kind.CoordinatedPr?
      && (set i | 0 <= i < |candidates| :: (candidates[i].reference, candidates[i].commitSha)) == request.Refs()
    }
  }

  datatype Publication = Publication(
    candidates: seq<CoordinationReceipt>, pr: CoordinationReceipt, gate: CoordinationReceipt)
  {
    function Receipts(): seq<CoordinationReceipt> { candidates + [pr, gate] }

    /** `PublicationResult.validate`. */
    predicate Validates(request: Request) {
      && Stage(candidates, pr).Validates(request)
      && gate.kind.ProducerGateReleased?
      && gate.migrationId == request.intent.migrationId
      && gate.evidenceUrl == pr.reference
    }

    /** The shape every validated publication has. */
    predicate Complete() {
      && |candidates| == 3
      && (forall i :: 0 <= i < 3 ==> candidates[i].kind.CandidateCommit?)
      && pr.kind.CoordinatedPr?
      && gate.kind.ProducerGateReleased?
    }
  }
}

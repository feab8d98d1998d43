/** The offline verification client of the test suite: a reCAPTCHA client whose
    request to the service is replaced by a fixed judgement, and which counts
    how often it would have contacted the service. */
module OfflineClient {
  import opened Wrappers
  import opened FormEncoding
  import opened Recaptcha

  const FakePrivateKey: Text := "private key"
  const FakePublicKey: Text := "public key"

  class OfflineVerificationClient {
    const client: Client
    const verificationResult: VerificationResult
    var communicationAttempts: nat

    /** A client with the fake keys and no options, answering every request
        with `verificationResult`, that has not contacted the service yet. */
    constructor (verificationResult: VerificationResult)
      ensures client == NewClient(FakePrivateKey, FakePublicKey, None, None)
      ensures this.verificationResult == verificationResult
      ensures communicationAttempts == 0
    {
      client := NewClient(FakePrivateKey, FakePublicKey, None, None);
      this.verificationResult := verificationResult;
      communicationAttempts := 0;
    }

    /** The judgement the stand-in for the service gives every request. */
    function StubVerifier(): Verifier {
      (solutionText: Text, challengeId: Text, remoteIp: Text) => Success(verificationResult)
    }

    /** Stands in for the request to the service: counts the attempt and
        answers with the fixed judgement. */
    method ResponseForSolution(solutionText: Text, challengeId: Text, remoteIp: Text)
      returns (r: Result<VerificationResult, ClientError>)
      modifies this
      ensures r == StubVerifier()(solutionText, challengeId, remoteIp)
      ensures communicationAttempts == old(communicationAttempts) + 1
    {
      communicationAttempts := communicationAttempts + 1;
      r := Success(verificationResult);
    }

    /** `is_solution_correct` run against the stand-in: it answers as the
        client does with `StubVerifier`, and contacts the service exactly when
        both the solution and the challenge id are non-empty. */
    method IsSolutionCorrect(solutionText: Text, challengeId: Text, remoteIp: Text)
      returns (r: Result<bool, ClientError>)
      modifies this
      ensures r == Recaptcha.IsSolutionCorrect(client, solutionText, challengeId, remoteIp, StubVerifier())
      ensures communicationAttempts
              == old(communicationAttempts) + (if solutionText == [] || challengeId == [] then 0 else 1)
    {
      if solutionText == [] || challengeId == [] {
        return Success(false);
      }
      var response := ResponseForSolution(solutionText, challengeId, remoteIp);
      match response
      case Failure(e) =>
        r := Failure(e);
      case Success(result) =>
        r := DecideSolution(client, challengeId, result);
    }
  }

  const FakeSolutionText: Text := "hello world"
  const FakeChallengeId: Text := "12345"
  const RandomRemoteIp: Text := "192.0.2.0"

  /** The solution-verification scenarios of the test suite, as assertions
      Dafny checks: empty input is judged wrong without contacting the
      service, the two invalid-request codes raise their errors carrying the
      challenge id or the private key, and the service's judgement decides
      otherwise. */
  method SolutionVerificationScenarios()
  {
    var incorrect := Incorrect(IncorrectSolutionCode);

    var emptySolution := new OfflineVerificationClient(incorrect);
    var r := emptySolution.IsSolutionCorrect([], FakeChallengeId, RandomRemoteIp);
    assert r == Success(false) && emptySolution.communicationAttempts == 0;

    var emptyChallenge := new OfflineVerificationClient(incorrect);
    r := emptyChallenge.IsSolutionCorrect(FakeSolutionText, [], RandomRemoteIp);
    assert r == Success(false) && emptyChallenge.communicationAttempts == 0;

    var invalidKey := new OfflineVerificationClient(Incorrect(InvalidPrivateKeyCode));
    r := invalidKey.IsSolutionCorrect(FakeSolutionText, FakeChallengeId, RandomRemoteIp);
    assert r == Failure(InvalidPrivateKeyError(FakePrivateKey));

    var invalidChallenge := new OfflineVerificationClient(Incorrect(InvalidChallengeCode));
    r := invalidChallenge.IsSolutionCorrect(FakeSolutionText, FakeChallengeId, RandomRemoteIp);
    assert r == Failure(InvalidChallengeError(FakeChallengeId));

    var correct := new OfflineVerificationClient(Correct);
    r := correct.IsSolutionCorrect(FakeSolutionText, FakeChallengeId, RandomRemoteIp);
    assert r == Success(true) && correct.communicationAttempts == 1;

    var wrong := new OfflineVerificationClient(incorrect);
    r := wrong.IsSolutionCorrect(FakeSolutionText, FakeChallengeId, RandomRemoteIp);
    assert r == Success(false);
  }
}

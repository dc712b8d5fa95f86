/** Commands, their digests and signed approvals. Hashes and signatures are symbolic:
    a digest determines its command, a signature can only be built from its key. */
module Authorization {
  import opened Common

  datatype Command = Command(
    id: string,
    requester: string,
    target: string,
    valueType: string,
    value: int,
    requestedAt: Time,
    deadline: Time)

  datatype Digest = Digest(of: Command)

  datatype Purpose = Ingress | Approval

  datatype Signature = Signature(key: string, purpose: Purpose, digest: Digest, writer: string, issuedAt: Time)

  datatype SignedEvidence = SignedEvidence(
    purpose: Purpose,
    digest: Digest,
    writer: string,
    issuedAt: Time,
    signature: Signature)

  /** Refuses an expired command unless asked not to: a validator still signs one, so that
      the writer can be asked for a retained result. */
  function SignApproval(command: Command, key: string, writer: string, now: Time,
                        allowExpired: bool): Result<SignedEvidence>
  {
    if !allowExpired && now > command.deadline then Failure("command expired")
    else
      var digest := Digest(command);
      Success(SignedEvidence(Approval, digest, writer, now, Signature(key, Approval, digest, writer, now)))
  }

  predicate VerifyEvidence(command: Command, evidence: SignedEvidence, key: string, purpose: Purpose,
                           writer: string, at: Time, allowExpired: bool)
  {
    && evidence.purpose == purpose
    && evidence.writer == writer
    && evidence.digest == Digest(command)
    && evidence.signature == Signature(key, evidence.purpose, evidence.digest, evidence.writer, evidence.issuedAt)
    && (allowExpired || at <= command.deadline)
    && evidence.issuedAt <= at
  }

  /** Evidence passes exactly when the key holder signed this command for this writer, at an
      instant not after the check; after the deadline only where expired evidence may pass. */
  lemma ApprovalIsUnforgeable(command: Command, evidence: SignedEvidence, key: string, writer: string, at: Time,
                              allowExpired: bool)
    ensures VerifyEvidence(command, evidence, key, Approval, writer, at, allowExpired)
       <==> && (allowExpired || at <= command.deadline)
            && evidence.issuedAt <= at
            && SignApproval(command, key, writer, evidence.issuedAt, true) == Success(evidence)
    ensures SignApproval(command, key, writer, at, allowExpired).Success? <==> allowExpired || at <= command.deadline
    ensures SignApproval(command, key, writer, at, allowExpired).Success? ==>
              SignApproval(command, key, writer, at, allowExpired) == SignApproval(command, key, writer, at, true)
  {
  }
}

/** How the orchestrator turns stage replies into one published outcome for each command. */
module ActuationPipeline {
  import opened Common
  import opened Authorization
  import opened CommandLedger
  import opened WriterProtocol
  import opened WriterSafety
  import opened WriterTheorems

  datatype Decision = Approved | Rejected(reason: string)

  /** A stage's answer: none in time, a transport error, one that cannot be trusted, or a reply. */
  datatype Answer<+T> = TimedOut | TransportError | Unusable | Usable(reply: T)

  datatype Validation = Validation(decision: Decision, approval: Option<SignedEvidence>)

  datatype WriterReply = WriterReply(statusOk: bool, result: WriteResult)

  datatype Published =
    | Nothing
    | Reject(reason: string, retryable: bool)
    | StillPending
    | OutcomeUnknown(reason: string)
    | Approve(writtenAt: Time, replayed: bool)

  datatype Stages = Stages(hasValidate: bool, hasWrite: bool, allowWrites: bool)

  function Or(text: string, fallback: string): string {
    if text == "" then fallback else text
  }

  /** The write stage was consulted at all. */
  predicate ReachesWriter(stages: Stages, validation: Answer<Validation>) {
    && stages.hasValidate && stages.hasWrite && stages.allowWrites
    && validation.Usable? && validation.reply.decision == Approved && validation.reply.approval.Some?
  }

  method RunPipeline(stages: Stages, validation: Answer<Validation>, written: Answer<WriterReply>)
    returns (published: Published)
    ensures ReachesWriter(stages, validation) ==>
      && (published.Reject? <==> written.Usable? && Refuses(written.reply.result))
      && (published.Reject? ==>
            && published.retryable == written.reply.result.retryable
            && published.reason == if written.reply.result.outcome == Conflict then "command_id_reused"
                                   else Or(written.reply.result.reason, "writer_refused"))
      && (published.OutcomeUnknown? <==>
            || !written.Usable? || written.reply.result.outcome == Indeterminate
            || (written.reply.result.outcome == Executed
                && (!written.reply.statusOk || written.reply.result.writtenAt.None?)))
      && (published.OutcomeUnknown? ==>
            published.reason == match written
                                case TimedOut => "write_timeout"
                                case TransportError => "write_transport_error"
                                case Unusable => "bad_write_reply"
                                case Usable(w) => if w.result.outcome == Executed then "bad_write_reply"
                                                  else Or(w.result.reason, "unknown"))
      && (published.Approve? <==> && written.Usable? && written.reply.statusOk
                                  && written.reply.result.outcome == Executed && written.reply.result.writtenAt.Some?)
      && (published.Approve? ==> && Some(published.writtenAt) == written.reply.result.writtenAt
                                 && published.replayed == written.reply.result.replayed)
      && (published.StillPending? <==> written.Usable? && written.reply.result.outcome == Pending)
      && published != Nothing
    ensures !stages.hasValidate ==> published.Nothing?
    ensures stages.hasValidate && !validation.Usable? ==>
      published == Reject(if validation.TimedOut? then "validate_timeout"
                          else if validation.TransportError? then "validate_error" else "bad_validate_reply", false)
    ensures stages.hasValidate && validation.Usable? && validation.reply.decision.Rejected? ==>
      published == Reject(Or(validation.reply.decision.reason, "rejected"), false)
    ensures stages.hasValidate && validation.Usable? && validation.reply.decision == Approved ==>
      && (validation.reply.approval.None? ==> published == Reject("missing_approval", false))
      && (validation.reply.approval.Some? && !stages.allowWrites ==> published == Reject("writes_disabled", false))
      && (validation.reply.approval.Some? && stages.allowWrites && !stages.hasWrite ==> published.Nothing?)
  {
    if !stages.hasValidate {
      return Nothing;
    }
    match validation
    case TimedOut => return Reject("validate_timeout", false);
    case TransportError => return Reject("validate_error", false);
    case Unusable => return Reject("bad_validate_reply", false);
    case Usable(v) =>
      if v.decision.Rejected? {
        return Reject(Or(v.decision.reason, "rejected"), false);
      }
      if v.approval.None? {
        return Reject("missing_approval", false);
      }
      if !stages.allowWrites {
        return Reject("writes_disabled", false);
      }
      if !stages.hasWrite {
        return Nothing;
      }
      match written
      case TimedOut => return OutcomeUnknown("write_timeout");
      case TransportError => return OutcomeUnknown("write_transport_error");
      case Unusable => return OutcomeUnknown("bad_write_reply");
      case Usable(w) =>
        var result := w.result;
        if result.outcome == Executed && (!w.statusOk || result.writtenAt.None?) {
          return OutcomeUnknown("bad_write_reply");
        }
        match result.outcome {
          case Pending => published := StillPending;
          case Indeterminate => published := OutcomeUnknown(Or(result.reason, "unknown"));
          case Conflict => published := Reject("command_id_reused", result.retryable);
          case NotExecuted => published := Reject(Or(result.reason, "writer_refused"), result.retryable);
          case Executed => published := Published.Approve(result.writtenAt.value, result.replayed);
        }
  }

  /** What the pipeline publishes about a delivery the writer answered is true of the whole run:
      a rejected delivery never put a frame on the wire, and an approved command was initiated,
      sent whole and acknowledged. */
  method PublishReply(cfg: Config, ghost events: seq<Event>, ghost id: nat, stages: Stages,
                      validation: Answer<Validation>, reply: WriterReply)
    returns (published: Published)
    requires cfg.retention > 0 && id in Run(cfg, events).replies
    requires reply.result == Run(cfg, events).replies[id].result
    requires ReachesWriter(stages, validation)
    ensures var s := Run(cfg, events);
            && (published.Reject? ==> forall f | f in s.frames :: f.delivery != id)
            && (published.Approve? ==>
                  && s.replies[id].command.Some?
                  && exists x :: x in s.history.starts && x.digest == Digest(s.replies[id].command.value)
                       && x.token in s.acked && AllFramesOf(cfg, s.frames, x.digest, x.token))
  {
    published := RunPipeline(stages, validation, Usable(reply));
    RepliesAreHonest(cfg, events, id);
  }
}

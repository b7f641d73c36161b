/** When a poll of a live sign-in may be relied on: exactly where the marker precedes the pop. */
module SignInExact {
  import opened Prelude
  import opened SignIn
  import opened SignInSafety
  import opened SignInRuns
  import opened SignInGap

  /** A finished poll of a sign-in that had begun, at an unexpired state whose outcome, if any, is still kept. */
  predicate PolledLive(w: World, i: int, s: string, verdict: Verdict) {
    var h := w.core.Past(s);
    && i in w.threads && w.threads[i].call.op == Poll(s) && w.threads[i].call.known && w.threads[i].pc == At(Finished(verdict))
    && h.expired.None? && !h.evicted
  }

  /** It answered, or the sign-in has failed. */
  predicate Answered(h: History, verdict: Verdict) {
    verdict.Returned? || h.failed.Some? || h.crashed
  }

  /** In no run does a poll of a live sign-in of this provider raise before the sign-in has failed. */
  ghost predicate PollsReliable(provider: string, rejecting: bool) {
    forall events, i, s, verdict ::
      PolledLive(Play(events), i, s, verdict)
      && Play(events).core.Past(s).started == Some(provider) && (Play(events).core.Past(s).rejected ==> rejecting)
      ==> Answered(Play(events).core.Past(s), verdict)
  }

  lemma BetrayedUnanswered(w: World, i: int, s: string)
    requires Betrayed(w, i, s)
    ensures PolledLive(w, i, s, RaisedUnknown) && !Answered(w.core.Past(s), RaisedUnknown)
  {
  }

  lemma RejectionBetrays(provider: string)
    ensures !PollsReliable(provider, true)
  {
    var begun, noon := Begun(provider), Noon(provider);
    var events := begun + RejectEvents(1, "s", "no", noon) + PollEvents(2, "s", noon);
    hide Play, Begun, Quiet, Waiting, Betrayed, RejectEvents, PollEvents, PolledLive, Answered;
    StartWaits(provider);
    RejectGap(begun, 1, 2, "s", "no", noon);
    BetrayedUnanswered(Play(events), 2, "s");
  }

  lemma MicrosoftBetrays(rejecting: bool)
    ensures !PollsReliable(MICROSOFT, rejecting)
  {
    var noon := Noon(MICROSOFT);
    var events := Begun(MICROSOFT) + CallbackEvents(1, "s", noon) + PollEvents(2, "s", noon);
    hide Play, Begun, Betrayed, CallbackEvents, PollEvents, PolledLive, Answered;
    PopBeforeMarkFails();
    BetrayedUnanswered(Play(events), 2, "s");
  }

  /** Polls of a provider are reliable if and only if it is not Microsoft and users may not reject. */
  lemma ReliableExactly(provider: string, rejecting: bool)
    ensures PollsReliable(provider, rejecting) <==> provider != MICROSOFT && !rejecting
  {
    if rejecting {
      RejectionBetrays(provider);
    } else if provider == MICROSOFT {
      MicrosoftBetrays(rejecting);
    } else {
      forall events, i, s, verdict
        | PolledLive(Play(events), i, s, verdict)
          && Play(events).core.Past(s).started == Some(provider) && (Play(events).core.Past(s).rejected ==> rejecting)
        ensures Answered(Play(events).core.Past(s), verdict)
      {
        PollsWaitForFailure(events, i, verdict);
      }
    }
  }
}

/**
 * What the console's HTTP client sends for a command, and what the offline protocol lets an executor
 * send: the same.
 */
module Repeats {
  import A = ApiClient
  import C = OfflineClient
  import S = OfflineServer

  /** Where an executor is in the protocol once its request has sent n times; `rids` are the
      numbers of its sends on the network. */
  function HttpAfter(n: nat, rids: nat -> nat): C.Http {
    if n == 0 then C.NotSent else C.Waiting(rids(n - 1), n > 1)
  }

  /** A 401 that the client has heard was answered to its first send. */
  ghost predicate AnswersHeard(steps: seq<A.Step>, r: nat, first: nat, answers: set<S.Sent>) {
    A.Heard401(steps, r) ==> S.Sent(first, S.Unauthorized) in answers
  }

  /**
   * In every run of the HTTP client, whenever it sends on a request's own path, the protocol's
   * executor stands before its first send, or may repeat after a 401; and it comes to stand behind
   * exactly that send.
   */
  lemma EverySendIsAllowed(run: seq<A.Client>, steps: seq<A.Step>, j: nat, r: nat, rids: nat -> nat,
                           answers: set<S.Sent>)
    requires A.IsTrace(run, steps) && j < |steps|
    requires A.CountSends(run[j + 1].sends, r) != A.CountSends(run[j].sends, r)
    requires AnswersHeard(steps[..j], r, rids(0), answers)
    ensures var n := A.CountSends(run[j].sends, r);
            var http := HttpAfter(n, rids);
            && (http.NotSent? || C.MayResend(http, answers))
            && HttpAfter(A.CountSends(run[j + 1].sends, r), rids) == C.Waiting(rids(n), !http.NotSent?)
  {
    hide A.IsTrace, A.Heard401, A.CountSends;
    A.SendsAgainOnlyAfter401(run, steps, j, r);
  }
}

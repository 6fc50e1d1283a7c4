/** What the driver's retry wrappers do with a script of link outcomes. Each wrapper
    calls the transport, and calls it again, with no limit and no pause, whenever the
    call fails with an error its policy treats as transient; any other outcome ends it.
    The single-register wrappers (_read_register, _write_register) retry only after no
    response; the multi-register ones (_read_registers, _write_registers) also after
    an invalid response. */
module Retry {
  import opened Modbus

  datatype Policy = SingleRegister | MultiRegister

  /** The errors after which a wrapper of the policy calls the transport again: both
      policies retry a lost reply, neither retries an error the device or the driver
      raised, and only the multi-register one retries a garbled reply. */
  predicate Retries(p: Policy, e: Error): (b: bool)
    ensures b ==> e == NoResponse || e == InvalidResponse
    ensures e == NoResponse ==> b
    ensures e == InvalidResponse ==> (b <==> p == MultiRegister)
  {
    e == NoResponse || (p == MultiRegister && e == InvalidResponse)
  }

  predicate Transient(p: Policy, x: Exchange) {
    x.Failed? && Retries(p, x.error)
  }

  /** The number of leading exchanges of the script the wrapper retries past. */
  function Retried(p: Policy, script: seq<Exchange>): (n: nat)
    ensures n <= |script|
    ensures forall i :: 0 <= i < n ==> Transient(p, script[i])
    ensures n < |script| ==> !Transient(p, script[n])
  {
    if script != [] && Transient(p, script[0]) then 1 + Retried(p, script[1..]) else 0
  }

  /** Retried is the length of the transient prefix and nothing else. */
  lemma {:induction false} RetriedUnique(p: Policy, script: seq<Exchange>, n: nat)
    requires n <= |script|
    requires forall i :: 0 <= i < n ==> Transient(p, script[i])
    requires n < |script| ==> !Transient(p, script[n])
    ensures Retried(p, script) == n
  {
    if n > 0 {
      assert Transient(p, script[0]);
      RetriedUnique(p, script[1..], n - 1);
    }
  }

  /** Exchange k of the script; past its end the device answers. */
  function At(script: seq<Exchange>, k: nat): Exchange {
    if k < |script| then script[k] else Answered
  }

  /** The script once its first k exchanges have been used. */
  function Drop(script: seq<Exchange>, k: nat): seq<Exchange> {
    if k <= |script| then script[k..] else []
  }

  /** The exchange the wrapper stops on. */
  function Final(p: Policy, script: seq<Exchange>): Exchange {
    At(script, Retried(p, script))
  }

  /** What the wrapper returns. It never hands its caller an error it retries after, and
      a success reads exactly the addressed registers. */
  function Reply(p: Policy, script: seq<Exchange>, bank: seq<U16>, req: Request): (r: Result<seq<U16>>)
    ensures r.Err? ==> !Retries(p, r.error)
    ensures r.Ok? ==> Encodable(req) && InBank(req, |bank|)
    ensures r.Ok? && !req.IsWrite() ==> r.value == bank[req.Start()..req.Start() + req.Count()]
  {
    Outcome(Final(p, script), bank, req)
  }

  /** The reply to a write depends on the bank only through its size. */
  lemma WriteReplySize(p: Policy, script: seq<Exchange>, b1: seq<U16>, b2: seq<U16>, req: Request)
    requires req.IsWrite() && |b1| == |b2|
    ensures Reply(p, script, b1, req) == Reply(p, script, b2, req)
  {
  }

  /** How many times the wrapper calls the transport: a request it cannot encode fails
      before anything is sent, otherwise once per retried failure and once more. */
  function Attempts(p: Policy, script: seq<Exchange>, req: Request): nat {
    if Encodable(req) then Retried(p, script) + 1 else 0
  }

  /** The script left for later calls. */
  function Remaining(p: Policy, script: seq<Exchange>, req: Request): seq<Exchange> {
    Drop(script, Attempts(p, script, req))
  }

  /** A wrapper whose first call fails with an error it retries after behaves as a
      fresh call of the same wrapper on the rest of the script, plus that one call. */
  lemma RetryStep(p: Policy, script: seq<Exchange>, bank: seq<U16>, req: Request)
    requires Encodable(req) && Transient(p, Next(script))
    ensures Attempts(p, script, req) == Attempts(p, Rest(script), req) + 1
    ensures Remaining(p, script, req) == Remaining(p, Rest(script), req)
    ensures Reply(p, script, bank, req) == Reply(p, Rest(script), bank, req)
  {
    var n := Retried(p, script[1..]);
    if n + 1 < |script| {
      assert script[n + 2..] == script[1..][n + 1..];
    }
  }

  /** A wrapper whose first call does not fail with an error it retries after makes
      that one call and replies with its outcome. */
  lemma StopStep(p: Policy, script: seq<Exchange>, bank: seq<U16>, req: Request)
    requires Encodable(req) && !Transient(p, Next(script))
    ensures Attempts(p, script, req) == 1 && Remaining(p, script, req) == Rest(script)
    ensures Reply(p, script, bank, req) == Outcome(Next(script), bank, req)
  {
  }

  /** n copies of a request, as they appear on the wire. */
  function Repeat(req: Request, n: nat): seq<Request> {
    seq(n, _ => req)
  }

  /** One call and then n more put n + 1 copies of the request on the wire. */
  lemma RepeatStep(req: Request, n: nat)
    ensures [req] + Repeat(req, n) == Repeat(req, n + 1)
  {
  }

  /** n consecutive failures with error e. */
  function Faults(e: LinkError, n: nat): seq<Exchange> {
    seq(n, _ => Failed(e))
  }

  /** n transient failures and then an answer: the wrapper calls the transport n + 1
      times and returns the device's answer, for every n. */
  lemma AnswerAfterTransients(p: Policy, e: Error, n: nat, rest: seq<Exchange>, bank: seq<U16>, req: Request)
    requires Retries(p, e) && Encodable(req)
    ensures var script := Faults(e, n) + [Answered] + rest;
      Attempts(p, script, req) == n + 1 &&
      Reply(p, script, bank, req) == Serve(bank, req) &&
      Remaining(p, script, req) == rest
  {
    var script := Faults(e, n) + [Answered] + rest;
    RetriedUnique(p, script, n);
    assert script[n + 1..] == rest;
  }

  /** An error the policy does not retry after ends the wrapper on the first call. */
  lemma FatalAtOnce(p: Policy, e: LinkError, rest: seq<Exchange>, bank: seq<U16>, req: Request)
    requires !Retries(p, e) && Encodable(req)
    ensures Attempts(p, [Failed(e)] + rest, req) == 1
    ensures Reply(p, [Failed(e)] + rest, bank, req) == Err(e)
    ensures Remaining(p, [Failed(e)] + rest, req) == rest
  {
    RetriedUnique(p, [Failed(e)] + rest, 0);
    assert ([Failed(e)] + rest)[1..] == rest;
  }

  /** An invalid response ends a single-register wrapper with that error, while a
      multi-register wrapper tries again as if the failed exchange had not been. */
  lemma InvalidResponsePolicies(rest: seq<Exchange>, bank: seq<U16>, req: Request)
    requires Encodable(req)
    ensures var script := [Failed(InvalidResponse)] + rest;
      Reply(SingleRegister, script, bank, req) == Err(InvalidResponse) &&
      Attempts(SingleRegister, script, req) == 1 &&
      Reply(MultiRegister, script, bank, req) == Reply(MultiRegister, rest, bank, req) &&
      Attempts(MultiRegister, script, req) == Attempts(MultiRegister, rest, req) + 1 &&
      Remaining(MultiRegister, script, req) == Remaining(MultiRegister, rest, req)
  {
    var script := [Failed(InvalidResponse)] + rest;
    FatalAtOnce(SingleRegister, InvalidResponse, rest, bank, req);
    assert script[1..] == rest;
    var n := Retried(MultiRegister, rest);
    if n < |rest| {
      assert script[n + 1..] == rest[n..];
    }
  }

  /** A multi-register wrapper keeps retrying at least as long as a single-register one. */
  lemma {:induction false} MultiRetriesLonger(script: seq<Exchange>)
    ensures Retried(SingleRegister, script) <= Retried(MultiRegister, script)
  {
    if script != [] && Transient(SingleRegister, script[0]) {
      MultiRetriesLonger(script[1..]);
    }
  }
}

/** `BaseSpider.request_html`: one request loop with a budget of ten attempts, over a
    network given as the outcomes of successive attempts. */
module Transport {
  import opened Base

  /** What one `requests.request(...)` followed by `raise_for_status()` ends in.
      `Transient` stands for Timeout, ProxyError, HTTPError, ReadTimeout and
      TooManyRedirects; `OtherError` for any other RequestException. */
  datatype Outcome<+P> = Success(payload: P) | Transient | OtherError

  /** A response whose status raised nothing, with the text encoding it was given. */
  datatype Response<+P> = Response(body: P, encoding: string)

  const MaxTries := 10
  const Utf8 := "utf-8"

  /** The result of `request_html` and the index of the next unused network outcome. */
  datatype Fetch<+P> = Fetch(response: Option<Response<P>>, next: nat)

  predicate TransientPrefix<P>(net: nat -> Outcome<P>, at: nat, k: nat)
  {
    forall j :: at <= j < at + k ==> net(j) == Transient
  }

  /** The request loop from the attempt numbered `num` on, the attempt reading the
      network outcome at index `at`. */
  function Attempts<P>(net: nat -> Outcome<P>, at: nat, num: nat): (f: Fetch<P>)
    requires 1 <= num <= MaxTries
    ensures at < f.next <= at + MaxTries + 1 - num
    ensures f.response.Some? ==> f.response.value.encoding == Utf8
    decreases MaxTries - num
  {
    match net(at)
    case Success(p) => Fetch(Some(Response(p, Utf8)), at + 1)
    case OtherError => Fetch(None, at + 1)
    case Transient =>
      if num + 1 > MaxTries then Fetch(None, at + 1) else Attempts(net, at + 1, num + 1)
  }

  /** `request_html(...)`, starting at network outcome `at`. */
  function Request<P>(net: nat -> Outcome<P>, at: nat): Fetch<P>
  {
    Attempts(net, at, 1)
  }

  lemma {:induction false} AttemptsAfterTransients<P>(net: nat -> Outcome<P>, at: nat, num: nat, k: nat)
    requires 1 <= num && num + k <= MaxTries && TransientPrefix(net, at, k)
    ensures Attempts(net, at, num) == Attempts(net, at + k, num + k)
    decreases k
  {
    if k > 0 {
      assert net(at) == Transient;
      AttemptsAfterTransients(net, at + 1, num + 1, k - 1);
    }
  }

  /** Ten transient failures in a row: ten attempts, then `None`. */
  lemma TenTransientFailures<P>(net: nat -> Outcome<P>, at: nat)
    requires TransientPrefix(net, at, MaxTries)
    ensures Request(net, at) == Fetch(None, at + MaxTries)
  {
    AttemptsAfterTransients(net, at, 1, MaxTries - 1);
    assert net(at + (MaxTries - 1)) == Transient;
  }

  /** Any other RequestException ends the loop at once with `None`: no retry. */
  lemma OtherErrorNoRetry<P>(net: nat -> Outcome<P>, at: nat, k: nat)
    requires k < MaxTries && TransientPrefix(net, at, k) && net(at + k) == OtherError
    ensures Request(net, at) == Fetch(None, at + k + 1)
  {
    AttemptsAfterTransients(net, at, 1, k);
  }

  /** A success within the budget is returned, with its encoding set to utf-8. */
  lemma SuccessWithinBudget<P>(net: nat -> Outcome<P>, at: nat, k: nat, p: P)
    requires k < MaxTries && TransientPrefix(net, at, k) && net(at + k) == Success(p)
    ensures Request(net, at) == Fetch(Some(Response(p, Utf8)), at + k + 1)
  {
    AttemptsAfterTransients(net, at, 1, k);
  }

  /** The first attempt among the ten that did not fail transiently, if there is one. */
  lemma {:induction false} FirstSettled<P>(net: nat -> Outcome<P>, at: nat, k: nat)
    requires k <= MaxTries && TransientPrefix(net, at, k)
    ensures TransientPrefix(net, at, MaxTries) ||
            exists j :: k <= j < MaxTries && TransientPrefix(net, at, j) && net(at + j) != Transient
    decreases MaxTries - k
  {
    if k < MaxTries {
      if net(at + k) == Transient {
        assert TransientPrefix(net, at, k + 1);
        FirstSettled(net, at, k + 1);
      }
    }
  }

  /** A response comes back only from an attempt that succeeded within the budget
      after transient failures only, and it carries that attempt's payload. */
  lemma ResponseOnlyFromSuccess<P>(net: nat -> Outcome<P>, at: nat)
    ensures var f := Request(net, at);
      f.response.Some? <==>
        exists k :: 0 <= k < MaxTries && TransientPrefix(net, at, k) && net(at + k).Success? &&
                    f == Fetch(Some(Response(net(at + k).payload, Utf8)), at + k + 1)
  {
    FirstSettled(net, at, 0);
    if TransientPrefix(net, at, MaxTries) {
      TenTransientFailures(net, at);
    } else {
      var j :| 0 <= j < MaxTries && TransientPrefix(net, at, j) && net(at + j) != Transient;
      if net(at + j).Success? {
        SuccessWithinBudget(net, at, j, net(at + j).payload);
      } else {
        OtherErrorNoRetry(net, at, j);
      }
    }
  }

  /** A response is the payload of the last outcome the loop read. */
  lemma ResponseFromLast<P>(net: nat -> Outcome<P>, at: nat)
    ensures var f := Request(net, at);
      f.response.Some? ==> f.next > at && net(f.next - 1) == Success(f.response.value.body)
  {
    ResponseOnlyFromSuccess(net, at);
  }

  /** The network: the outcome of every attempt, and how many attempts were made. */
  class Network<P> {
    const net: nat -> Outcome<P>
    var sent: nat

    constructor (net: nat -> Outcome<P>)
      ensures this.net == net && sent == 0
    {
      this.net := net;
      sent := 0;
    }

    /** `BaseSpider.request_html`. */
    method RequestHtml() returns (response: Option<Response<P>>)
      modifies this
      ensures Fetch(response, sent) == Request(net, old(sent))
    {
      var error := false;
      var num := 1;
      ghost var start := sent;
      while true
        invariant 1 <= num <= MaxTries && !error
        invariant Request(net, start) == Attempts(net, sent, num)
        decreases MaxTries - num
      {
        var outcome := net(sent);
        sent := sent + 1;
        match outcome {
          case Success(p) =>
            response := Some(Response(p, Utf8));
          case Transient =>
            response := None;
            num := num + 1;
            if num > MaxTries {
              error := true;
            }
          case OtherError =>
            response := None;
            error := true;
        }
        if response.Some? || error {
          break;
        }
      }
    }
  }
}

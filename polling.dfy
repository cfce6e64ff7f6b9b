/** Model of the job-status polling in `generate_image_from_prompt` (main.py).
    The HTTP calls are replaced by their answers: the outcome of the job-creation
    request and the sequence of answers the status endpoint gives, poll by poll. */
module Polling {

  type Url = string

  datatype Option<+T> = None | Some(value: T)

  /** At most this many status checks are made (`range(20)`). */
  const MaxPolls: nat := 20

  /** Seconds slept before each status check (`time.sleep(5)`). */
  const PollIntervalSeconds: nat := 5

  const Succeed: string := "SUCCEED"
  const Failed: string := "FAILED"
  const Running: string := "RUNNING"
  const Pending: string := "PENDING"

  /** What the job-creation request produced: a task id, or an exception
      (`raise_for_status`, a body without `task_id`). */
  datatype Creation = CreationError | Created(taskId: string)

  /** One answer of the status endpoint: an exception raised while fetching or
      decoding it (an error status, a body that is not JSON, a missing key), or the
      decoded `task_status` with the `output_images` list. */
  datatype Response = HttpError | Status(taskStatus: string, outputImages: seq<Url>)

  /** What one status answer means for the loop. */
  datatype Verdict = KeepWaiting | Finish(image: Option<Url>) | Throw

  /** How the whole generation ends: returned a value after `polls` status checks,
      or raised an exception after `polls` status checks (0 if creation raised). */
  datatype Outcome = Done(image: Option<Url>, polls: nat) | Raised(polls: nat)

  predicate IsWaiting(r: Response) {
    r.Status? && (r.taskStatus == Running || r.taskStatus == Pending)
  }

  predicate IsImage(r: Response) {
    r.Status? && r.taskStatus == Succeed && r.outputImages != []
  }

  /** The branching on one decoded status answer. */
  function Classify(r: Response): (v: Verdict)
    ensures v.KeepWaiting? <==> IsWaiting(r)
    ensures v.Throw? <==> r.HttpError?
    ensures v == Finish(None) <==> !r.HttpError? && !IsWaiting(r) && !IsImage(r)
    ensures v.Finish? && v.image.Some? <==> IsImage(r)
    ensures IsImage(r) ==> v == Finish(Some(r.outputImages[0]))
  {
    match r
    case HttpError => Throw
    case Status(status, images) =>
      if status == Succeed then
        if images != [] then Finish(Some(images[0])) else Finish(None)
      else if status == Failed then Finish(None)
      else if status == Running || status == Pending then KeepWaiting
      else Finish(None)
  }

  /** Specification of the loop: the outcome when checks number i+1, i+2, ...
      are still to be made. */
  function PollFrom(responses: seq<Response>, i: nat): (o: Outcome)
    requires i <= MaxPolls <= |responses|
    ensures o.polls <= MaxPolls
    ensures i < o.polls || i == o.polls == MaxPolls
    decreases MaxPolls - i
  {
    if i == MaxPolls then Done(None, MaxPolls)
    else
      match Classify(responses[i])
      case KeepWaiting => PollFrom(responses, i + 1)
      case Finish(image) => Done(image, i + 1)
      case Throw => Raised(i + 1)
  }

  function Poll(responses: seq<Response>): (o: Outcome)
    requires MaxPolls <= |responses|
    ensures 1 <= o.polls <= MaxPolls
  {
    PollFrom(responses, 0)
  }

  /** Specification of the whole function: creation, then the polling loop. */
  function Generate(creation: Creation, responses: seq<Response>): (o: Outcome)
    requires MaxPolls <= |responses|
    ensures o.polls <= MaxPolls
    ensures o.polls == 0 <==> creation.CreationError?
  {
    match creation
    case CreationError => Raised(0)
    case Created(_) => Poll(responses)
  }

  /** The function as the source writes it: a `for` loop of at most MaxPolls
      checks with an early return on every answer that is not RUNNING/PENDING. */
  method GenerateImageFromPrompt(creation: Creation, responses: seq<Response>) returns (o: Outcome)
    requires MaxPolls <= |responses|
    ensures o == Generate(creation, responses)
  {
    if creation.CreationError? {
      return Raised(0);
    }
    for i := 0 to MaxPolls
      invariant PollFrom(responses, i) == Poll(responses)
    {
      var verdict := Classify(responses[i]);
      match verdict {
        case KeepWaiting =>
        case Finish(image) =>
          return Done(image, i + 1);
        case Throw =>
          return Raised(i + 1);
      }
    }
    return Done(None, MaxPolls);
  }

  /** Total time slept: one wait precedes every status check. */
  function SecondsWaited(o: Outcome): nat
  {
    PollIntervalSeconds * o.polls
  }

  // ---------------------------------------------------------------------
  // Properties of the polling specification

  /** With the wait before each check, at most 100 seconds are slept. */
  lemma WaitBound(creation: Creation, responses: seq<Response>)
    requires MaxPolls <= |responses|
    ensures SecondsWaited(Generate(creation, responses)) <= MaxPolls * PollIntervalSeconds
  {
  }

  /** If every answer among the checks still to be made is RUNNING or PENDING,
      the loop runs out and returns no image after exactly MaxPolls checks. */
  lemma {:induction false} AllWaitingFrom(responses: seq<Response>, i: nat)
    requires i <= MaxPolls <= |responses|
    requires forall j :: i <= j < MaxPolls ==> IsWaiting(responses[j])
    ensures PollFrom(responses, i) == Done(None, MaxPolls)
    decreases MaxPolls - i
  {
    if i < MaxPolls {
      AllWaitingFrom(responses, i + 1);
    }
  }

  lemma TimesOut(responses: seq<Response>)
    requires MaxPolls <= |responses|
    requires forall j :: 0 <= j < MaxPolls ==> IsWaiting(responses[j])
    ensures Poll(responses) == Done(None, MaxPolls)
  {
    AllWaitingFrom(responses, 0);
  }

  /** The outcome decided by the first answer k that is not RUNNING/PENDING. */
  function Settle(v: Verdict, k: nat): Outcome
    requires !v.KeepWaiting?
  {
    match v
    case Finish(image) => Done(image, k + 1)
    case Throw => Raised(k + 1)
  }

  lemma {:induction false} FirstSettledFrom(responses: seq<Response>, i: nat, k: nat)
    requires i <= k < MaxPolls <= |responses|
    requires forall j :: i <= j < k ==> IsWaiting(responses[j])
    requires !IsWaiting(responses[k])
    ensures PollFrom(responses, i) == Settle(Classify(responses[k]), k)
    decreases k - i
  {
    if i < k {
      FirstSettledFrom(responses, i + 1, k);
    }
  }

  /** When the answer to check k+1 is the first that is not RUNNING/PENDING, the
      loop stops there: exactly k+1 checks, and the outcome is what that answer
      says (its first image, no image, or the exception). */
  lemma FirstSettled(responses: seq<Response>, k: nat)
    requires k < MaxPolls <= |responses|
    requires forall j :: 0 <= j < k ==> IsWaiting(responses[j])
    requires !IsWaiting(responses[k])
    ensures Poll(responses).polls == k + 1
    ensures Poll(responses) == Settle(Classify(responses[k]), k)
  {
    FirstSettledFrom(responses, 0, k);
  }

  lemma {:induction false} PollFromShape(responses: seq<Response>, i: nat)
    requires i < MaxPolls <= |responses|
    ensures var o := PollFrom(responses, i);
      && i < o.polls <= MaxPolls
      && (forall j :: i <= j < o.polls - 1 ==> IsWaiting(responses[j]))
      && (if IsWaiting(responses[o.polls - 1]) then o == Done(None, MaxPolls)
          else o == Settle(Classify(responses[o.polls - 1]), o.polls - 1))
    decreases MaxPolls - i
  {
    if IsWaiting(responses[i]) && i + 1 < MaxPolls {
      PollFromShape(responses, i + 1);
    }
  }

  /** Conversely, every outcome has that shape: all answers before the last
      check were RUNNING/PENDING, and the last one either settled the outcome or
      was RUNNING/PENDING at check MaxPolls (a timeout). */
  lemma PollShape(responses: seq<Response>)
    requires MaxPolls <= |responses|
    ensures var o := Poll(responses);
      && 1 <= o.polls <= MaxPolls
      && (forall j :: 0 <= j < o.polls - 1 ==> IsWaiting(responses[j]))
      && (if IsWaiting(responses[o.polls - 1]) then o == Done(None, MaxPolls)
          else o == Settle(Classify(responses[o.polls - 1]), o.polls - 1))
  {
    PollFromShape(responses, 0);
  }

  /** A returned image is always the first entry of `output_images` of a SUCCEED
      answer, the answer to the last check made. */
  lemma ImageFromSucceed(responses: seq<Response>)
    requires MaxPolls <= |responses|
    requires Poll(responses).Done? && Poll(responses).image.Some?
    ensures var o := Poll(responses);
      && IsImage(responses[o.polls - 1])
      && o.image.value == responses[o.polls - 1].outputImages[0]
  {
    PollShape(responses);
  }

  lemma {:induction false} PollFromReadsPrefix(responses: seq<Response>, other: seq<Response>, i: nat)
    requires i <= MaxPolls <= |responses| && MaxPolls <= |other|
    requires responses[..PollFrom(responses, i).polls] == other[..PollFrom(responses, i).polls]
    ensures PollFrom(other, i) == PollFrom(responses, i)
    decreases MaxPolls - i
  {
    var n := PollFrom(responses, i).polls;
    if i < MaxPolls {
      assert responses[i] == responses[..n][i] == other[..n][i] == other[i];
      if Classify(responses[i]).KeepWaiting? {
        PollFromReadsPrefix(responses, other, i + 1);
      }
    }
  }

  /** No check is made after the one that settles the outcome: answers beyond
      the last check made never influence it. */
  lemma PollReadsPrefix(responses: seq<Response>, other: seq<Response>)
    requires MaxPolls <= |responses| && MaxPolls <= |other|
    requires responses[..Poll(responses).polls] == other[..Poll(responses).polls]
    ensures Poll(other) == Poll(responses)
  {
    PollFromReadsPrefix(responses, other, 0);
  }

  // ---------------------------------------------------------------------
  // Scenarios: fixed answer sequences, followed by any answers at all

  /** SUCCEED with one image on the first check: that image, after one check. */
  lemma ImmediateSuccess(id: string, url: Url, rest: seq<Response>)
    requires MaxPolls <= |rest| + 1
    ensures Generate(Created(id), [Status(Succeed, [url])] + rest) == Done(Some(url), 1)
  {
    FirstSettled([Status(Succeed, [url])] + rest, 0);
  }

  /** PENDING, RUNNING, SUCCEED(["u"]): "u" after exactly three checks, having
      slept 15 seconds (one wait before each check, the first one included). */
  lemma SuccessAfterThree(id: string, rest: seq<Response>)
    requires MaxPolls <= |rest| + 3
    ensures var o := Generate(Created(id), [Status(Pending, []), Status(Running, []), Status(Succeed, ["u"])] + rest);
      o == Done(Some("u"), 3) && SecondsWaited(o) == 15
  {
    var rs := [Status(Pending, []), Status(Running, []), Status(Succeed, ["u"])] + rest;
    FirstSettled(rs, 2);
  }

  /** Twenty RUNNING answers: no image, after exactly twenty checks. */
  lemma TwentyRunning(id: string, rest: seq<Response>)
    ensures Generate(Created(id), seq(MaxPolls, _ => Status(Running, [])) + rest) == Done(None, MaxPolls)
  {
    TimesOut(seq(MaxPolls, _ => Status(Running, [])) + rest);
  }

  /** FAILED on the first check: no image, after one check. */
  lemma FailsAtOnce(id: string, images: seq<Url>, rest: seq<Response>)
    requires MaxPolls <= |rest| + 1
    ensures Generate(Created(id), [Status(Failed, images)] + rest) == Done(None, 1)
  {
    FirstSettled([Status(Failed, images)] + rest, 0);
  }

  /** SUCCEED with an empty `output_images`: no image (not an exception). */
  lemma SucceedWithoutImage(id: string, rest: seq<Response>)
    requires MaxPolls <= |rest| + 1
    ensures Generate(Created(id), [Status(Succeed, [])] + rest) == Done(None, 1)
  {
    FirstSettled([Status(Succeed, [])] + rest, 0);
  }

  /** A status the loop does not know ends it with no image. */
  lemma UnknownStatus(id: string, status: string, images: seq<Url>, rest: seq<Response>)
    requires status !in {Succeed, Failed, Running, Pending}
    requires MaxPolls <= |rest| + 1
    ensures Generate(Created(id), [Status(status, images)] + rest) == Done(None, 1)
  {
    FirstSettled([Status(status, images)] + rest, 0);
  }

  /** An error on the creation request propagates instead of yielding no image. */
  lemma CreationErrorRaises(responses: seq<Response>)
    requires MaxPolls <= |responses|
    ensures Generate(CreationError, responses).Raised?
    ensures Generate(CreationError, responses).polls == 0
  {
  }
}

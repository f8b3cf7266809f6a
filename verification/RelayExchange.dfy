// One exchange with a hub through the cloud relay: publish the request, poll for
// its result, publish again when the relay may have lost it, all under one
// deadline and against any sequence of replies.
module RelayExchange {
  import opened Prelude

  // ------------------------------------------------------------- data model

  datatype Call = Call(requestId: string, operation: string, body: string, ttl: nat, hubIdentity: Option<string>)

  datatype Request = Post(call: Call) | Get(requestId: string)

  // The fields the loop reads of a JSON reply; None where absent or ill-typed.
  datatype HubResult = HubResult(status: Option<string>, httpStatus: Option<nat>, body: Option<string>)

  datatype Payload = Payload(
    requestId: Option<string>,
    deadline: Option<int>,
    identity: Option<string>,
    status: Option<string>,
    result: Option<HubResult>)

  // `payload` is None when the bytes are not JSON; `changed` is the error code
  // HUB_IDENTITY_CHANGED in the bytes.
  datatype Answer = Failed(malformed: bool) | Status(code: nat, changed: bool, payload: Option<Payload>)

  // How long the reply took, how much longer than asked the pause after it
  // lasted (milliseconds), and the wall clock when it was read.
  datatype Reply = Reply(answer: Answer, took: nat, overslept: nat, wall: int)

  datatype Event = Event(request: Request, sentAt: int, reply: Reply, seenAt: int)

  datatype Outcome =
    | Complete(identity: string, status: nat, body: string)
    | BadRequest
    | MalformedResponse
    | IdentityChanged
    | Unavailable

  // Lengths of the request as the client serialises it.
  datatype Sizes = Sizes(inner: nat, wrapped: nat, encoded: nat)

  const MAX_RESPONSE := 74_096
  const PAUSE := 250
  const REPUBLISH := 2000

  // ---------------------------------------------------------- specification

  predicate Accepted(e: Event) {
    e.reply.answer.Status? && e.reply.answer.code == 202
  }

  // The deadline and identity a 202 commits the relay to.
  function Commitment(e: Event): Option<(int, string)> {
    if Accepted(e) && e.reply.answer.payload.Some? && e.reply.answer.payload.value.deadline.Some?
       && e.reply.answer.payload.value.identity.Some?
    then Some((e.reply.answer.payload.value.deadline.value, e.reply.answer.payload.value.identity.value))
    else None
  }

  // The reply is about this call and contradicts neither the pinned identity
  // nor anything accepted before.
  predicate Coherent(call: Call, earlier: seq<Event>, payload: Payload, wall: int) {
    && payload.requestId == Some(call.requestId)
    && payload.deadline.Some? && payload.deadline.value > wall
    && payload.identity.Some? && |payload.identity.value| == 64 && AllHex(payload.identity.value)
    && (call.hubIdentity.Some? ==> call.hubIdentity == payload.identity)
    && forall j :: 0 <= j < |earlier| && Commitment(earlier[j]).Some? ==>
                     Commitment(earlier[j]).value == (payload.deadline.value, payload.identity.value)
  }

  predicate Finished(payload: Payload) {
    && payload.status == Some("complete")
    && payload.result.Some?
    && payload.result.value.status == Some("complete")
    && payload.result.value.httpStatus.Some?
    && (200 <= payload.result.value.httpStatus.value < 300 || 400 <= payload.result.value.httpStatus.value <= 599)
    && payload.result.value.body.Some? && Utf8Len(payload.result.value.body.value) <= 70_000
  }

  datatype Verdict = Again | Stop(outcome: Outcome)

  predicate Transient(answer: Answer) {
    if answer.Failed? then !answer.malformed else answer.code == 429 || 500 <= answer.code <= 599
  }

  function Judge(call: Call, earlier: seq<Event>, reply: Reply): Verdict {
    var answer := reply.answer;
    if Transient(answer) then Again
    else if answer.Failed? then Stop(MalformedResponse)
    else if answer.code == 409 && answer.changed then Stop(IdentityChanged)
    else if answer.payload.None? || !Coherent(call, earlier, answer.payload.value, reply.wall) then Stop(Unavailable)
    else if answer.code == 202 && answer.payload.value.status == Some("pending") && answer.payload.value.result.None?
      then Again
    else if answer.code == 200 && Finished(answer.payload.value) then
      Stop(Complete(answer.payload.value.identity.value, answer.payload.value.result.value.httpStatus.value,
                    answer.payload.value.result.value.body.value))
    else Stop(Unavailable)
  }

  // When the relay last confirmed a publication.
  function LastPublish(earlier: seq<Event>, start: int): int {
    if earlier == [] then start
    else
      var e := earlier[|earlier| - 1];
      if e.request.Post? && Accepted(e) then e.seenAt else LastPublish(earlier[..|earlier| - 1], start)
  }

  predicate Publishes(earlier: seq<Event>, start: int, t: int) {
    (forall j :: 0 <= j < |earlier| ==> !Accepted(earlier[j])) || t >= LastPublish(earlier, start) + REPUBLISH
  }

  // The next request follows the last reply after a pause.
  function NextAt(start: int, log: seq<Event>): int {
    if log == [] then start else log[|log| - 1].seenAt + PAUSE + log[|log| - 1].reply.overslept
  }

  // What was sent, when, and what came back, as long as the loop goes on.
  predicate Sound(call: Call, start: int, replies: nat -> Reply, log: seq<Event>) {
    && (forall i :: 0 <= i < |log| ==> log[i].reply == replies(i) && log[i].seenAt == log[i].sentAt + log[i].reply.took)
    && (forall i :: 0 <= i < |log| ==>
                      log[i].request
                      == if Publishes(log[..i], start, log[i].sentAt) then Post(call) else Get(call.requestId))
    && (forall i :: 0 <= i < |log| ==> log[i].sentAt == NextAt(start, log[..i]))
  }

  function End(call: Call, start: int): int {
    start + call.ttl
  }

  predicate GoesOn(call: Call, end: int, log: seq<Event>, i: nat)
    requires i < |log|
  {
    && log[i].seenAt <= end && Judge(call, log[..i], log[i].reply) == Again
    && log[i].seenAt + PAUSE + log[i].reply.overslept <= end
  }

  // A whole exchange and how it ended.
  predicate Transcript(call: Call, start: int, replies: nat -> Reply, log: seq<Event>, outcome: Outcome) {
    && |log| > 0
    && Sound(call, start, replies, log)
    && (forall i :: 0 <= i < |log| - 1 ==> GoesOn(call, End(call, start), log, i))
    && !GoesOn(call, End(call, start), log, |log| - 1)
    && var last := log[|log| - 1];
       var verdict := Judge(call, log[..|log| - 1], last.reply);
       outcome == if last.seenAt <= End(call, start) && verdict.Stop? then verdict.outcome else Unavailable
  }

  // ----------------------------------------------------------------- the loop

  // The loop's own variables against the history.
  predicate Tracks(call: Call, start: int, log: seq<Event>, accepted: bool, deadline: Option<int>,
                   identity: Option<string>, lastPublish: int)
  {
    && (accepted <==> exists j :: 0 <= j < |log| && Accepted(log[j]))
    && (accepted <==> deadline.Some?)
    && (accepted ==> identity.Some?)
    && (!accepted ==> identity == call.hubIdentity)
    && (call.hubIdentity.Some? ==> identity == call.hubIdentity)
    && lastPublish == LastPublish(log, start)
    && forall j :: 0 <= j < |log| && Accepted(log[j]) ==>
                     accepted && Commitment(log[j]) == Some((deadline.value, identity.value))
  }

  lemma TracksCoherence(call: Call, start: int, log: seq<Event>, accepted: bool, deadline: Option<int>,
                        identity: Option<string>, lastPublish: int, payload: Payload, wall: int)
    requires Tracks(call, start, log, accepted, deadline, identity, lastPublish)
    ensures Coherent(call, log, payload, wall) <==> Fits(call, deadline, identity, payload, wall)
  {
    if accepted {
      var j :| 0 <= j < |log| && Accepted(log[j]);
      assert Commitment(log[j]) == Some((deadline.value, identity.value));
    }
  }

  // What one reply means to the loop, in terms of its own variables.
  function Read(call: Call, deadline: Option<int>, identity: Option<string>, reply: Reply): Verdict {
    match reply.answer
    case Failed(malformed) => if malformed then Stop(MalformedResponse) else Again
    case Status(code, changed, bytes) =>
      if code == 429 || 500 <= code <= 599 then Again
      else if code == 409 && changed then Stop(IdentityChanged)
      else if bytes.None? || !Fits(call, deadline, identity, bytes.value, reply.wall) then Stop(Unavailable)
      else if code == 202 && bytes.value.status == Some("pending") && bytes.value.result.None? then Again
      else if code == 200 && Finished(bytes.value) then
        Stop(Complete(bytes.value.identity.value, bytes.value.result.value.httpStatus.value,
                      bytes.value.result.value.body.value))
      else Stop(Unavailable)
  }

  predicate Fits(call: Call, deadline: Option<int>, identity: Option<string>, payload: Payload, wall: int) {
    && payload.deadline.Some? && payload.identity.Some?
    && |payload.identity.value| == 64 && AllHex(payload.identity.value)
    && (identity.Some? ==> identity == payload.identity)
    && payload.requestId == Some(call.requestId) && payload.deadline.value > wall
    && (deadline.Some? ==> deadline == payload.deadline)
  }

  lemma ReadIsJudge(call: Call, start: int, log: seq<Event>, accepted: bool, deadline: Option<int>,
                    identity: Option<string>, lastPublish: int, reply: Reply)
    requires Tracks(call, start, log, accepted, deadline, identity, lastPublish)
    ensures Judge(call, log, reply) == Read(call, deadline, identity, reply)
  {
    hide Tracks, Coherent, Fits, AllHex;
    if reply.answer.Status? && reply.answer.payload.Some? {
      TracksCoherence(call, start, log, accepted, deadline, identity, lastPublish, reply.answer.payload.value,
                      reply.wall);
    }
  }

  // A step that does not end the loop keeps its variables in touch with history.
  lemma TracksOn(call: Call, start: int, log: seq<Event>, e: Event, accepted: bool, deadline: Option<int>,
                 identity: Option<string>, lastPublish: int)
    requires Tracks(call, start, log, accepted, deadline, identity, lastPublish)
    requires Read(call, deadline, identity, e.reply) == Again
    ensures if Accepted(e) then
              && e.reply.answer.payload.Some?
              && Tracks(call, start, log + [e], true, e.reply.answer.payload.value.deadline,
                        e.reply.answer.payload.value.identity, if e.request.Post? then e.seenAt else lastPublish)
            else Tracks(call, start, log + [e], accepted, deadline, identity, lastPublish)
  {
    hide AllHex, Finished;
    assert (log + [e])[..|log|] == log;
    assert (log + [e])[|log|] == e;
  }

  lemma TracksPublication(call: Call, start: int, log: seq<Event>, accepted: bool, deadline: Option<int>,
                          identity: Option<string>, lastPublish: int, t: int)
    requires Tracks(call, start, log, accepted, deadline, identity, lastPublish)
    ensures Publishes(log, start, t) <==> !accepted || t - lastPublish >= REPUBLISH
  {
  }

  // The part of a transcript already behind the loop.
  predicate Behind(call: Call, start: int, replies: nat -> Reply, log: seq<Event>) {
    Sound(call, start, replies, log) && forall i :: 0 <= i < |log| ==> GoesOn(call, End(call, start), log, i)
  }

  lemma NothingBehind(call: Call, start: int, replies: nat -> Reply)
    ensures Behind(call, start, replies, []) && Tracks(call, start, [], false, None, call.hubIdentity, start)
  {
  }

  lemma SoundOn(call: Call, start: int, replies: nat -> Reply, log: seq<Event>, e: Event)
    requires Sound(call, start, replies, log)
    requires e.reply == replies(|log|) && e.seenAt == e.sentAt + e.reply.took && e.sentAt == NextAt(start, log)
    requires e.request == if Publishes(log, start, e.sentAt) then Post(call) else Get(call.requestId)
    ensures Sound(call, start, replies, log + [e])
  {
    hide Publishes;
    var more := log + [e];
    forall i | 0 <= i < |more|
      ensures more[i].reply == replies(i) && more[i].seenAt == more[i].sentAt + more[i].reply.took
      ensures more[i].request == if Publishes(more[..i], start, more[i].sentAt) then Post(call) else Get(call.requestId)
      ensures more[i].sentAt == NextAt(start, more[..i])
    {
      if i < |log| {
        assert more[..i] == log[..i];
      } else {
        assert more[..i] == log;
      }
    }
  }

  lemma StepOn(call: Call, start: int, replies: nat -> Reply, log: seq<Event>, e: Event)
    requires Behind(call, start, replies, log)
    requires e.reply == replies(|log|) && e.seenAt == e.sentAt + e.reply.took && e.sentAt == NextAt(start, log)
    requires e.request == if Publishes(log, start, e.sentAt) then Post(call) else Get(call.requestId)
    ensures var end := End(call, start);
            var verdict := Judge(call, log, e.reply);
            if e.seenAt <= end && verdict == Again && NextAt(start, log + [e]) <= end then
              Behind(call, start, replies, log + [e])
            else
              Transcript(call, start, replies, log + [e],
                         if e.seenAt <= end && verdict.Stop? then verdict.outcome else Unavailable)
  {
    hide Judge, Publishes, Sound;
    SoundOn(call, start, replies, log, e);
    var more := log + [e];
    assert more[..|log|] == log;
    forall i | 0 <= i < |log|
      ensures GoesOn(call, End(call, start), more, i)
    {
      assert more[..i] == log[..i];
      assert GoesOn(call, End(call, start), log, i);
    }
  }

  method Exchange(hub: string, isObject: bool, sizes: Sizes, call: Call, start: int, replies: nat -> Reply)
    returns (outcome: Outcome, log: seq<Event>)
    ensures if NamesAHub(hub) && isObject && sizes.inner <= 70_000 && sizes.wrapped <= 118_976
               && sizes.encoded <= 74_096
            then Transcript(call, start, replies, log, outcome)
            else outcome == BadRequest && log == []
  {
    hide Behind, Tracks, Transcript, Publishes, Judge, AllHex, ValidHubId, Utf8Len;
    log := [];
    NothingBehind(call, start, replies);
    HubNames(hub);
    if !ValidHubId(hub) || !isObject {
      return BadRequest, log;
    }
    if sizes.inner > 70_000 || sizes.wrapped + 1024 > 120_000 || sizes.encoded > MAX_RESPONSE {
      return BadRequest, log;
    }
    var end := End(call, start);
    var accepted := false;
    var cloudDeadline: Option<int> := None;
    var cloudIdentity := call.hubIdentity;
    var lastPublish := start;
    var now := start;
    while true
      invariant now <= end && now == NextAt(start, log)
      invariant Behind(call, start, replies, log)
      invariant Tracks(call, start, log, accepted, cloudDeadline, cloudIdentity, lastPublish)
      decreases end - now
    {
      var publish := !accepted || now - lastPublish >= REPUBLISH;
      var request := if publish then Post(call) else Get(call.requestId);
      var reply := replies(|log|);
      var event := Event(request, now, reply, now + reply.took);
      TracksPublication(call, start, log, accepted, cloudDeadline, cloudIdentity, lastPublish, now);
      ReadIsJudge(call, start, log, accepted, cloudDeadline, cloudIdentity, lastPublish, reply);
      StepOn(call, start, replies, log, event);
      if Read(call, cloudDeadline, cloudIdentity, reply) == Again {
        TracksOn(call, start, log, event, accepted, cloudDeadline, cloudIdentity, lastPublish);
      }
      log := log + [event];
      now := now + reply.took;
      if now > end {
        return Unavailable, log;
      }
      match reply.answer {
        case Failed(malformed) =>
          if malformed {
            return MalformedResponse, log;
          }
        case Status(code, changed, bytes) =>
          if code != 429 && !(500 <= code <= 599) {
            if code == 409 && changed {
              return IdentityChanged, log;
            }
            if (code != 200 && code != 202) || bytes.None? {
              return Unavailable, log;
            }
            var payload := bytes.value;
            if payload.deadline.None? {
              return Unavailable, log;
            }
            if payload.identity.None? || |payload.identity.value| != 64 || !AllHex(payload.identity.value) {
              return Unavailable, log;
            }
            if cloudIdentity.Some? && cloudIdentity != payload.identity {
              return Unavailable, log;
            }
            cloudIdentity := payload.identity;
            if payload.requestId != Some(call.requestId) || payload.deadline.value <= reply.wall
               || (cloudDeadline.Some? && cloudDeadline != payload.deadline)
            {
              return Unavailable, log;
            }
            cloudDeadline := payload.deadline;
            if code == 202 {
              if payload.status != Some("pending") || payload.result.Some? {
                return Unavailable, log;
              }
              accepted := true;
              if publish {
                lastPublish := now;
              }
            } else {
              if payload.status != Some("complete") || payload.result.None?
                 || payload.result.value.status != Some("complete")
              {
                return Unavailable, log;
              }
              var result := payload.result.value;
              if result.httpStatus.None? || !(200 <= result.httpStatus.value <= 599)
                 || 300 <= result.httpStatus.value < 400
              {
                return Unavailable, log;
              }
              if result.body.None? || Utf8Len(result.body.value) > 70_000 {
                return Unavailable, log;
              }
              return Complete(payload.identity.value, result.httpStatus.value, result.body.value), log;
            }
          }
      }
      now := now + PAUSE + reply.overslept;
      if now > end {
        return Unavailable, log;
      }
    }
  }

  // --------------------------------------------------- what an exchange promises

  lemma {:induction false} LastPublishIsAccepted(earlier: seq<Event>, start: int)
    ensures LastPublish(earlier, start) == start
            || exists j :: 0 <= j < |earlier| && Published(earlier[j])
                           && LastPublish(earlier, start) == earlier[j].seenAt
    ensures (exists j :: 0 <= j < |earlier| && Published(earlier[j])) ==>
              exists j :: 0 <= j < |earlier| && Published(earlier[j])
                          && LastPublish(earlier, start) == earlier[j].seenAt
  {
    if earlier != [] {
      var last := |earlier| - 1;
      LastPublishIsAccepted(earlier[..last], start);
      assert Published(earlier[last]) ==> LastPublish(earlier, start) == earlier[last].seenAt;
      assert forall j :: 0 <= j < last ==> earlier[..last][j] == earlier[j];
    }
  }

  predicate Published(e: Event) {
    e.request.Post? && Accepted(e)
  }

  lemma {:induction false} FirstAcceptedIsPost(call: Call, start: int, replies: nat -> Reply, log: seq<Event>, i: nat)
    requires Sound(call, start, replies, log) && i < |log| && Accepted(log[i])
    ensures exists j :: 0 <= j <= i && Published(log[j])
  {
    if !log[i].request.Post? {
      var j :| 0 <= j < i && Accepted(log[..i][j]);
      FirstAcceptedIsPost(call, start, replies, log, j);
    }
  }

  lemma PollIsFresh(call: Call, start: int, replies: nat -> Reply, log: seq<Event>, i: nat)
    requires Sound(call, start, replies, log) && i < |log| && log[i].request.Get?
    ensures exists j :: 0 <= j < i && Published(log[j]) && log[i].sentAt < log[j].seenAt + REPUBLISH
  {
    hide Judge, LastPublish, NextAt;
    var j :| 0 <= j < i && Accepted(log[..i][j]);
    FirstAcceptedIsPost(call, start, replies, log, j);
    LastPublishIsAccepted(log[..i], start);
    var k :| 0 <= k <= j && Published(log[k]);
    assert Published(log[..i][k]);
  }

  // Every publication carries the same bytes, the first request among them. The
  // client polls for this very call, only once the relay has accepted a
  // publication and for less than two seconds after the last one.
  lemma PollsFollowAcceptance(call: Call, start: int, replies: nat -> Reply, log: seq<Event>, outcome: Outcome, i: nat)
    requires Transcript(call, start, replies, log, outcome) && i < |log|
    ensures log[0].request == Post(call)
    ensures log[i].request == Post(call)
            || (log[i].request == Get(call.requestId)
                && exists j :: 0 <= j < i && Published(log[j]) && log[i].sentAt < log[j].seenAt + 2_000)
  {
    hide Judge, LastPublish, NextAt, GoesOn;
    assert Publishes(log[..0], start, log[0].sentAt);
    if log[i].request.Get? {
      PollIsFresh(call, start, replies, log, i);
    }
  }

  lemma {:induction false} LaterPublish(log: seq<Event>, start: int, i: nat, n: nat)
    requires i < n <= |log| && Published(log[i])
    requires forall a, b :: 0 <= a < b < |log| ==> log[a].seenAt <= log[b].seenAt
    ensures LastPublish(log[..n], start) >= log[i].seenAt
  {
    assert log[..n][..n - 1] == log[..n - 1];
    if i < n - 1 {
      LaterPublish(log, start, i, n - 1);
    }
  }

  lemma {:induction false} TimeAdvances(call: Call, start: int, replies: nat -> Reply, log: seq<Event>, a: nat, b: nat)
    requires Sound(call, start, replies, log) && a < b < |log|
    ensures log[a].seenAt + PAUSE * (b - a) <= log[b].sentAt <= log[b].seenAt
    decreases b
  {
    hide Publishes;
    if a < b - 1 {
      TimeAdvances(call, start, replies, log, a, b - 1);
    }
    assert log[b].sentAt == NextAt(start, log[..b]);
    assert log[..b][|log[..b]| - 1] == log[b - 1];
  }

  // Once a publication was accepted the next one comes at least 2 s later.
  lemma PublicationsAreSpaced(call: Call, start: int, replies: nat -> Reply, log: seq<Event>, outcome: Outcome, i: nat,
                              j: nat)
    requires Transcript(call, start, replies, log, outcome) && i < j < |log|
    requires Published(log[i]) && log[j].request.Post?
    ensures log[j].sentAt >= log[i].seenAt + 2_000
  {
    hide Judge, LastPublish;
    forall a, b | 0 <= a < b < |log|
      ensures log[a].seenAt <= log[b].seenAt
    {
      TimeAdvances(call, start, replies, log, a, b);
    }
    LaterPublish(log, start, i, j);
    assert Accepted(log[..j][i]);
  }

  // The loop ends within the original time to live, after a bounded number of
  // requests, each a quarter of a second after the reply before it.
  lemma RequestsAreBounded(call: Call, start: int, replies: nat -> Reply, log: seq<Event>, outcome: Outcome)
    requires Transcript(call, start, replies, log, outcome)
    ensures log[0].sentAt == start && log[|log| - 1].sentAt <= start + call.ttl
    ensures forall i :: 0 < i < |log| ==> log[i].sentAt == log[i - 1].seenAt + 250 + log[i - 1].reply.overslept
    ensures 250 * (|log| - 1) <= call.ttl
  {
    hide Judge, Publishes;
    var last := |log| - 1;
    forall i | 0 < i < |log|
      ensures log[i].sentAt == log[i - 1].seenAt + 250 + log[i - 1].reply.overslept
    {
      assert log[..i][|log[..i]| - 1] == log[i - 1];
      assert log[i].sentAt == NextAt(start, log[..i]);
    }
    assert log[0].sentAt == start && log[0].seenAt >= start;
    if last > 0 {
      assert GoesOn(call, End(call, start), log, last - 1);
      TimeAdvances(call, start, replies, log, 0, last);
    }
  }

  // A result comes only from a reply seen in time that names this request, and
  // whose deadline and identity agree with every reply accepted before it and
  // with the pinned identity.
  lemma ResultsAreVouched(call: Call, start: int, replies: nat -> Reply, log: seq<Event>, outcome: Outcome)
    requires Transcript(call, start, replies, log, outcome) && outcome.Complete?
    ensures var last := log[|log| - 1];
            && last.seenAt <= start + call.ttl
            && last.reply.answer.Status? && last.reply.answer.code == 200 && last.reply.answer.payload.Some?
            && var payload := last.reply.answer.payload.value;
               && payload.requestId == Some(call.requestId)
               && payload.identity == Some(outcome.identity)
               && (call.hubIdentity.Some? ==> call.hubIdentity == Some(outcome.identity))
               && payload.deadline.Some? && payload.deadline.value > last.reply.wall
               && payload.result.Some? && payload.result.value.body == Some(outcome.body)
               && payload.result.value.httpStatus == Some(outcome.status)
               && forall j :: 0 <= j < |log| - 1 && Accepted(log[j]) ==>
                                Commitment(log[j]) == Some((payload.deadline.value, outcome.identity))
  {
    hide Sound, Publishes, AllHex, Utf8Len;
    var last := |log| - 1;
    forall j | 0 <= j < last && Accepted(log[j])
      ensures Commitment(log[j]).Some?
    {
      assert GoesOn(call, End(call, start), log, j);
    }
    assert forall j :: 0 <= j < last ==> log[..last][j] == log[j];
  }

  // What a good result is, field by field: it names this call, is still alive,
  // and agrees with the pinned identity and with every reply accepted before.
  predicate GoodResult(call: Call, log: seq<Event>, identity: string, status: nat, body: string)
    requires log != []
  {
    var last := log[|log| - 1].reply;
    && last.answer.Status? && last.answer.code == 200 && last.answer.payload.Some?
    && var payload := last.answer.payload.value;
       && payload.requestId == Some(call.requestId)
       && payload.deadline.Some? && payload.deadline.value > last.wall
       && payload.identity == Some(identity) && |identity| == 64
       && (forall i :: 0 <= i < 64 ==> identity[i] in "0123456789abcdefABCDEF")
       && (call.hubIdentity.Some? ==> call.hubIdentity.value == identity)
       && (forall j :: 0 <= j < |log| - 1 && log[j].reply.answer.Status? && log[j].reply.answer.code == 202
                       && log[j].reply.answer.payload.Some? ==>
                         log[j].reply.answer.payload.value.deadline == payload.deadline
                         && log[j].reply.answer.payload.value.identity == payload.identity)
       && payload.status == Some("complete")
       && payload.result == Some(HubResult(Some("complete"), Some(status), Some(body)))
       && 200 <= status <= 599 && !(300 <= status <= 399)
       && Utf8Len(body) <= 70_000
  }

  // How an exchange ends is decided by its last reply: no good result is thrown
  // away, and no other reply passes for one.
  lemma OutcomesAreDecided(call: Call, start: int, replies: nat -> Reply, log: seq<Event>, outcome: Outcome)
    requires Transcript(call, start, replies, log, outcome)
    ensures var last := log[|log| - 1];
            var inTime := last.seenAt <= start + call.ttl;
            && (forall identity, status, body ::
                  outcome == Complete(identity, status, body) <==>
                  inTime && GoodResult(call, log, identity, status, body))
            && (outcome == IdentityChanged <==>
                inTime && last.reply.answer.Status? && last.reply.answer.code == 409 && last.reply.answer.changed)
            && (outcome == MalformedResponse <==> inTime && last.reply.answer == Failed(true))
            && outcome != BadRequest
  {
    hide Sound, Publishes, AllHex, Utf8Len;
    var last := log[|log| - 1];
    var earlier := log[..|log| - 1];
    forall j | 0 <= j < |log| - 1
      ensures earlier[j] == log[j] && (Accepted(log[j]) ==> Commitment(log[j]).Some?)
    {
      assert GoesOn(call, End(call, start), log, j);
    }
    forall identity, status, body
      ensures outcome == Complete(identity, status, body) <==>
              last.seenAt <= start + call.ttl && GoodResult(call, log, identity, status, body)
    {
      HexDigits(identity);
    }
  }

  // Overload, server errors, lost connections and the word that the hub is still
  // at work never end an exchange that has time left; nothing else lets it go on.
  lemma TransientsAreRetried(call: Call, start: int, replies: nat -> Reply, log: seq<Event>, outcome: Outcome)
    requires Transcript(call, start, replies, log, outcome)
    ensures forall i :: 0 <= i < |log| - 1 ==>
                          var answer := log[i].reply.answer;
                          || answer == Failed(false)
                          || (answer.Status? && (answer.code == 429 || 500 <= answer.code <= 599 || answer.code == 202))
    ensures var answer := log[|log| - 1].reply.answer;
            answer == Failed(false) || (answer.Status? && (answer.code == 429 || 500 <= answer.code <= 599)) ==>
              outcome == Unavailable && NextAt(start, log) > start + call.ttl
    ensures var last := log[|log| - 1].reply;
            && last.answer.Status? && last.answer.code == 202 && last.answer.payload.Some?
            && Coherent(call, log[..|log| - 1], last.answer.payload.value, last.wall)
            && last.answer.payload.value.status == Some("pending") && last.answer.payload.value.result.None? ==>
              outcome == Unavailable && NextAt(start, log) > start + call.ttl
  {
    hide Sound, Publishes, Coherent, Finished;
    forall i | 0 <= i < |log| - 1
      ensures Transient(log[i].reply.answer) || Accepted(log[i])
    {
      assert GoesOn(call, End(call, start), log, i);
    }
  }

  lemma SameNext(call: Call, start: int, replies: nat -> Reply, a: seq<Event>, b: seq<Event>, n: nat)
    requires Sound(call, start, replies, a) && Sound(call, start, replies, b) && n < |a| && n < |b| && a[..n] == b[..n]
    ensures a[n] == b[n]
  {
    hide Publishes, NextAt;
    assert a[n].sentAt == NextAt(start, a[..n]) && b[n].sentAt == NextAt(start, b[..n]);
    assert a[n].reply == replies(n) && b[n].reply == replies(n);
  }

  lemma {:induction false} SamePrefix(call: Call, start: int, replies: nat -> Reply, a: seq<Event>, b: seq<Event>,
                                      n: nat)
    requires Sound(call, start, replies, a) && Sound(call, start, replies, b) && n <= |a| && n <= |b|
    ensures a[..n] == b[..n]
  {
    hide Sound;
    if n > 0 {
      SamePrefix(call, start, replies, a, b, n - 1);
      SameNext(call, start, replies, a, b, n - 1);
      assert a[..n] == a[..n - 1] + [a[n - 1]] && b[..n] == b[..n - 1] + [b[n - 1]];
    }
  }

  // The replies determine the exchange: what is sent and how it ends.
  lemma RepliesDecide(call: Call, start: int, replies: nat -> Reply, a: seq<Event>, b: seq<Event>, x: Outcome,
                      y: Outcome)
    requires Transcript(call, start, replies, a, x) && Transcript(call, start, replies, b, y) && |a| <= |b|
    ensures a == b && x == y
  {
    hide Sound, Publishes, Judge;
    SamePrefix(call, start, replies, a, b, |a|);
    assert a == b[..|a|];
    var i := |a| - 1;
    assert a[..i] == b[..i] && a[i] == b[i];
    assert GoesOn(call, End(call, start), a, i) == GoesOn(call, End(call, start), b, i);
  }
}

/** The single-message path of the Pulsar consumer: src/mq/pulsar/decorators/pulsar-consumer.ts. */
module PulsarProcessor {

  datatype Config = Config(isAutoAcknowledge: bool, messageValidation: bool, hasMethod: bool,
                           maxRetries: nat, retryDelay: nat, deadLetter: bool)

  /** What a delivered message turns out to be; an empty one counts as undecodable.  throws: whether the
      consumer's method throws on it. */
  datatype Payload = Undecodable | BadJson | Parsed(isNull: bool, throws: bool)

  /** What the broker is told about the delivery. */
  datatype Reply = Acked | Nacked(delay: nat) | Silent

  datatype Metrics = Metrics(received: nat, processed: nat, acknowledged: nat, failed: nat, retried: nat,
                             discarded: nat, deadLettered: nat)

  const MAX_DELAY := 30 * 1000

  predicate Handled(config: Config, payload: Payload) {
    && payload.Parsed?
    && !(config.messageValidation && payload.isNull)
    && config.hasMethod
    && !payload.throws
  }

  function Pow2(n: nat): (p: nat)
    ensures p >= 1
  {
    if n == 0 then 1 else 2 * Pow2(n - 1)
  }

  function CalculateRetryDelay(config: Config, attempt: nat): nat {
    var delay := config.retryDelay * Pow2(attempt);
    if delay < MAX_DELAY then delay else MAX_DELAY
  }

  lemma {:induction false} Pow2Grows(m: nat, n: nat)
    requires m <= n
    ensures Pow2(m) <= Pow2(n)
  {
    if m < n {
      Pow2Grows(m, n - 1);
    }
  }

  lemma MultiplyBoth(a: nat, x: nat, y: nat)
    requires x <= y
    ensures a * x <= a * y
  {
  }

  /** Later attempts never wait less, and no wait is above the cap. */
  lemma DelaysGrow(config: Config, earlier: nat, later: nat)
    requires earlier <= later
    ensures CalculateRetryDelay(config, earlier) <= CalculateRetryDelay(config, later) <= 30000
  {
    Pow2Grows(earlier, later);
    MultiplyBoth(config.retryDelay, Pow2(earlier), Pow2(later));
  }

  /** The first retry waits for the configured delay and each further one twice as long, up to half a minute. */
  lemma DelaysDouble(config: Config, attempt: nat)
    ensures CalculateRetryDelay(config, 0) == if config.retryDelay < 30000 then config.retryDelay else 30000
    ensures CalculateRetryDelay(config, attempt + 1) ==
      if 2 * CalculateRetryDelay(config, attempt) < 30000 then 2 * CalculateRetryDelay(config, attempt) else 30000
  {
    TwiceAsLong(config.retryDelay, Pow2(attempt));
    assert Pow2(0) == 1;
  }

  lemma TwiceAsLong(a: nat, x: nat)
    ensures a * (2 * x) == 2 * (a * x)
  {
  }

  function Attempts(retryAttempts: map<string, nat>, id: string): nat {
    if id in retryAttempts then retryAttempts[id] else 0
  }

  class MessageProcessor {
    const config: Config
    var retryAttempts: map<string, nat>
    var metrics: Metrics
    // Failures whose final acknowledgement the broker refused.
    ghost var stuck: nat

    constructor (config: Config)
      ensures this.config == config && retryAttempts == map[] && stuck == 0
      ensures metrics == Metrics(0, 0, 0, 0, 0, 0, 0)
    {
      this.config := config;
      retryAttempts, metrics, stuck := map[], Metrics(0, 0, 0, 0, 0, 0, 0), 0;
    }

    /** Stored attempts stay within bounds and the counters add up. */
    ghost predicate Valid()
      reads this
    {
      && (forall id :: id in retryAttempts ==> 1 <= retryAttempts[id] <= config.maxRetries)
      && metrics.received == metrics.processed + metrics.failed
      && metrics.failed == metrics.retried + metrics.discarded + stuck
      && metrics.deadLettered <= metrics.discarded + stuck
    }

    /** acks: whether the broker takes the acknowledgement after success and the one that discards. */
    method ProcessMessage(id: string, payload: Payload, acks: Acks, deadLetterOk: bool) returns (reply: Reply)
      requires Valid()
      modifies this
      ensures Valid()
      ensures (reply, retryAttempts) == Process(config, old(retryAttempts), id, payload, acks)
      ensures var ok := Succeeds(config, payload, acks);
        var gone := !ok && Attempts(old(retryAttempts), id) >= config.maxRetries;
        && metrics == Metrics(
             old(metrics.received) + 1,
             old(metrics.processed) + Bit(ok),
             old(metrics.acknowledged) + Bit(ok && config.isAutoAcknowledge),
             old(metrics.failed) + Bit(!ok),
             old(metrics.retried) + Bit(!ok && !gone),
             old(metrics.discarded) + Bit(gone && acks.discard),
             old(metrics.deadLettered) + Bit(gone && config.deadLetter && deadLetterOk))
        && stuck == old(stuck) + Bit(gone && !acks.discard)
    {
      metrics := metrics.(received := metrics.received + 1);
      if Handled(config, payload) && (acks.success || !config.isAutoAcknowledge) {
        if config.isAutoAcknowledge {
          metrics := metrics.(acknowledged := metrics.acknowledged + 1);
          reply := Acked;
        } else {
          reply := Silent;
        }
        metrics := metrics.(processed := metrics.processed + 1);
        retryAttempts := retryAttempts - {id};
      } else {
        metrics := metrics.(failed := metrics.failed + 1);
        reply := HandleError(id, acks.discard, deadLetterOk);
      }
    }

    method HandleError(id: string, ackOk: bool, deadLetterOk: bool) returns (reply: Reply)
      modifies this
      ensures (reply, retryAttempts) == Fail(config, old(retryAttempts), id, ackOk)
      ensures var gone := Attempts(old(retryAttempts), id) >= config.maxRetries;
        && metrics == old(metrics).(
             retried := old(metrics.retried) + Bit(!gone),
             discarded := old(metrics.discarded) + Bit(gone && ackOk),
             deadLettered := old(metrics.deadLettered) + Bit(gone && config.deadLetter && deadLetterOk))
        && stuck == old(stuck) + Bit(gone && !ackOk)
    {
      var currentAttempts := if id in retryAttempts then retryAttempts[id] else 0;
      if currentAttempts < config.maxRetries {
        retryAttempts := retryAttempts[id := currentAttempts + 1];
        var delay := CalculateRetryDelay(config, currentAttempts);
        metrics := metrics.(retried := metrics.retried + 1);
        return Nacked(delay);
      }
      if config.deadLetter && deadLetterOk {
        metrics := metrics.(deadLettered := metrics.deadLettered + 1);
      }
      if !ackOk {
        stuck := stuck + 1;
        return Silent;
      }
      metrics := metrics.(discarded := metrics.discarded + 1);
      retryAttempts := retryAttempts - {id};
      return Acked;
    }
  }

  datatype Acks = Acks(success: bool, discard: bool)

  function Bit(b: bool): nat {
    if b then 1 else 0
  }

  predicate Succeeds(config: Config, payload: Payload, acks: Acks) {
    Handled(config, payload) && (acks.success || !config.isAutoAcknowledge)
  }

  function Fail(config: Config, retryAttempts: map<string, nat>, id: string, ackOk: bool): (Reply, map<string, nat>) {
    var current := Attempts(retryAttempts, id);
    if current < config.maxRetries then
      (Nacked(CalculateRetryDelay(config, current)), retryAttempts[id := current + 1])
    else if ackOk then (Acked, retryAttempts - {id})
    else (Silent, retryAttempts)
  }

  function Process(config: Config, retryAttempts: map<string, nat>, id: string, payload: Payload, acks: Acks)
    : (Reply, map<string, nat>)
  {
    if Succeeds(config, payload, acks) then
      (if config.isAutoAcknowledge then Acked else Silent, retryAttempts - {id})
    else Fail(config, retryAttempts, id, acks.discard)
  }

  /** What the broker is told, exactly.  A message that decodes, parses, passes validation if that is on and
      whose handler exists and does not throw is acknowledged, or left to its handler; every other one is
      rejected while it was rejected less than maxRetries times, and then acknowledged away.  Either end
      forgets its attempts. */
  lemma RepliesExactly(config: Config, retryAttempts: map<string, nat>, id: string, payload: Payload, acks: Acks)
    ensures var (reply, attempts) := Process(config, retryAttempts, id, payload, acks);
      var taken := payload.Parsed? && !payload.throws && config.hasMethod && (config.messageValidation ==> !payload.isNull);
      var n := if id in retryAttempts then retryAttempts[id] else 0;
      if taken && (config.isAutoAcknowledge ==> acks.success) then
        reply == (if config.isAutoAcknowledge then Acked else Silent) && attempts == retryAttempts - {id}
      else if n < config.maxRetries then
        reply == Nacked(CalculateRetryDelay(config, n)) && attempts == retryAttempts[id := n + 1]
      else if acks.discard then reply == Acked && attempts == retryAttempts - {id}
      else reply == Silent && attempts == retryAttempts
  {
  }

  // ----- the broker: a message is open until it is acknowledged, and each rejection delivers it again

  datatype History = History(delivered: nat, nacked: nat, delays: seq<nat>, open: bool)

  datatype World = World(retryAttempts: map<string, nat>, messages: map<string, History>)

  datatype Event = Publish(id: string) | Deliver(id: string, payload: Payload)

  /** A delivery reaches the consumer when the message was just published or last rejected; handlers that
      acknowledge themselves close the message by returning. */
  function Step(config: Config, w: World, e: Event): World {
    match e
    case Publish(id) =>
      if id in w.messages || id in w.retryAttempts then w
      else w.(messages := w.messages[id := History(0, 0, [], true)])
    case Deliver(id, payload) =>
      if id !in w.messages || !w.messages[id].open then w
      else
        var (reply, attempts) := Process(config, w.retryAttempts, id, payload, Acks(true, true));
        var h := w.messages[id];
        World(attempts, w.messages[id :=
          if reply.Nacked? then History(h.delivered + 1, h.nacked + 1, h.delays + [reply.delay], true)
          else History(h.delivered + 1, h.nacked, h.delays, false)])
  }

  function Run(config: Config, events: seq<Event>): World {
    if events == [] then World(map[], map[])
    else Step(config, Run(config, events[..|events| - 1]), events[|events| - 1])
  }

  ghost predicate HistoryOk(config: Config, w: World, id: string) {
    id in w.messages ==>
      var h := w.messages[id];
      && h.nacked == |h.delays| <= config.maxRetries
      && (forall i :: 0 <= i < |h.delays| ==> h.delays[i] == CalculateRetryDelay(config, i))
      && (if h.open then h.delivered == h.nacked == Attempts(w.retryAttempts, id)
          else h.delivered == h.nacked + 1 && id !in w.retryAttempts)
  }

  lemma StepKeepsHistory(config: Config, w: World, e: Event, id: string)
    requires HistoryOk(config, w, id)
    ensures HistoryOk(config, Step(config, w, e), id)
  {
  }

  lemma {:induction false} RunKeepsHistory(config: Config, events: seq<Event>, id: string)
    ensures HistoryOk(config, Run(config, events), id)
  {
    if events != [] {
      RunKeepsHistory(config, events[..|events| - 1], id);
      StepKeepsHistory(config, Run(config, events[..|events| - 1]), events[|events| - 1], id);
    }
  }

  /** With acknowledgements going through, every message is rejected at most maxRetries times and
      delivered at most once more, its waits never shrink and never exceed the cap. */
  lemma BoundedRedelivery(config: Config, events: seq<Event>, id: string)
    requires id in Run(config, events).messages
    ensures var h := Run(config, events).messages[id];
      && h.nacked <= config.maxRetries
      && h.delivered <= config.maxRetries + 1
      && (forall i, j :: 0 <= i <= j < |h.delays| ==> h.delays[i] <= h.delays[j] <= 30000)
  {
    RunKeepsHistory(config, events, id);
    var h := Run(config, events).messages[id];
    forall i, j | 0 <= i <= j < |h.delays| ensures h.delays[i] <= h.delays[j] <= 30000 {
      DelaysGrow(config, i, j);
    }
  }
}

/** The result publisher of src/app/queue_sender.py: a sender bound to one
    backend, RabbitMQ (exchange and routing key, over a connection opened with
    bounded retries) or SQS (a queue URL, through a client). The network is an
    oracle that decides the outcome of each connection attempt, client creation
    and publish; time.sleep is a Clock that records each wait. */
module Sender {
  import opened Results

  /** Connection attempts made before giving up. */
  const RETRIES: nat := 5
  /** Seconds slept after each failed connection attempt. */
  const RETRY_DELAY: nat := 5

  const QUEUE_TYPE_MESSAGE := "QUEUE_TYPE must be 'rabbitmq' or 'sqs'"
  const CONNECT_MESSAGE := "Failed to connect to RabbitMQ after retries."

  /** The constructor's settings. */
  datatype Config = Config(queueType: string, rabbitmqHost: string, rabbitmqExchange: string,
                           rabbitmqRoutingKey: string, rabbitmqVhost: string, sqsQueueUrl: string)

  /** The settings used when the environment supplies none. */
  const DEFAULT_CONFIG := Config("rabbitmq", "localhost", "stock_analysis", "default", "/", "")

  /** The SQS client's region when AWS_REGION is unset. */
  const DEFAULT_REGION := "us-east-1"

  /** What the broker does with one connection attempt: refuse the
      connection, open it but fail to open a channel on it, or open both. */
  datatype ConnectAttempt = Refused | ChannelFailed | Opened

  /** A broker connection, named by the attempt that opened it. */
  datatype Connection = Connection(attempt: nat, isOpen: bool)

  /** A channel, named by the attempt whose connection carries it. */
  datatype Channel = Channel(attempt: nat)

  datatype SqsClient = SqsClient(region: string)

  /** The exceptions the sender raises or lets through. */
  datatype SenderError =
    | ValueError(message: string)
    | ConnectionError(message: string)
    | ClientError
    | PublishError

  /** An outgoing message, as the dictionary handed to send_message. */
  type Message = map<string, string>

  /** The serialised message body; the encoding itself is not modelled. */
  datatype Payload = Json(message: Message)

  function Serialize(message: Message): Payload {
    Json(message)
  }

  /** What a backend was handed: a basic_publish or an SQS send_message. */
  datatype Publication =
    | BasicPublish(exchange: string, routingKey: string, body: Payload)
    | SqsSend(queueUrl: string, messageBody: Payload)

  /** n waits of RETRY_DELAY seconds. */
  function Waits(n: nat): (w: seq<nat>)
    ensures |w| == n
    ensures forall i :: 0 <= i < n ==> w[i] == RETRY_DELAY
  {
    if n == 0 then [] else Waits(n - 1) + [RETRY_DELAY]
  }

  /** The total of a list of waits, in seconds. */
  function TotalWait(w: seq<nat>): nat {
    if w == [] then 0 else TotalWait(w[..|w| - 1]) + w[|w| - 1]
  }

  /** n failed attempts cost n * RETRY_DELAY seconds of sleep, so running
      out of retries costs RETRIES * RETRY_DELAY = 25. */
  lemma {:induction false} WaitsTotal(n: nat)
    ensures TotalWait(Waits(n)) == n * RETRY_DELAY
  {
    if n > 0 {
      WaitsTotal(n - 1);
      assert Waits(n)[..n - 1] == Waits(n - 1);
    }
  }

  /** The first attempt, numbered from `from` up to RETRIES, that opens both a
      connection and a channel. */
  function FirstOpened(broker: nat -> ConnectAttempt, from: nat): (k: Option<nat>)
    requires 1 <= from
    ensures k.Some? ==> from <= k.value <= RETRIES && broker(k.value) == Opened
    ensures k.Some? ==> forall j :: from <= j < k.value ==> broker(j) != Opened
    ensures k.None? ==> forall j :: from <= j <= RETRIES ==> broker(j) != Opened
    decreases RETRIES + 1 - from
  {
    if from > RETRIES then None
    else if broker(from) == Opened then Some(from)
    else FirstOpened(broker, from + 1)
  }

  /** An attempt that opens both, after failed attempts only, is the first. */
  lemma {:induction false} FirstOpenedAt(broker: nat -> ConnectAttempt, from: nat, k: nat)
    requires 1 <= from <= k <= RETRIES && broker(k) == Opened
    requires forall j :: from <= j < k ==> broker(j) != Opened
    ensures FirstOpened(broker, from) == Some(k)
    decreases k - from
  {
    if from < k {
      FirstOpenedAt(broker, from + 1, k);
    }
  }

  /** When no attempt from `from` on opens both, there is no first. */
  lemma {:induction false} FirstOpenedNone(broker: nat -> ConnectAttempt, from: nat)
    requires 1 <= from
    requires forall j :: from <= j <= RETRIES ==> broker(j) != Opened
    ensures FirstOpened(broker, from) == None
    decreases RETRIES + 1 - from
  {
    if from <= RETRIES {
      FirstOpenedNone(broker, from + 1);
    }
  }

  /** The connection field after failed attempts 1..n: each attempt that
      opened a connection but no channel leaves that connection behind. */
  function ConnectionAfter(broker: nat -> ConnectAttempt, n: nat, initial: Option<Connection>): Option<Connection> {
    if n == 0 then initial
    else if broker(n) == ChannelFailed then Some(Connection(n, true))
    else ConnectionAfter(broker, n - 1, initial)
  }

  /** Failed attempts leave either the connection there was before them or
      the open connection of the last attempt that got no channel. */
  lemma {:induction false} ConnectionAfterIsLastHalfOpen(broker: nat -> ConnectAttempt, n: nat, initial: Option<Connection>)
    ensures var c := ConnectionAfter(broker, n, initial);
      && (c == initial || (c.Some? && 1 <= c.value.attempt <= n && c.value.isOpen && broker(c.value.attempt) == ChannelFailed))
      && (c != initial ==> forall j :: c.value.attempt < j <= n ==> broker(j) != ChannelFailed)
    ensures (forall j :: 1 <= j <= n ==> broker(j) != ChannelFailed) ==> ConnectionAfter(broker, n, initial) == initial
  {
    if n > 0 && broker(n) != ChannelFailed {
      ConnectionAfterIsLastHalfOpen(broker, n - 1, initial);
    }
  }

  /** The connection after close(): closed if it was open, otherwise as it was. */
  function AfterClose(c: Option<Connection>): (r: Option<Connection>)
    ensures r.Some? <==> c.Some?
    ensures r.Some? ==> !r.value.isOpen && r.value.attempt == c.value.attempt
  {
    if c.Some? && c.value.isOpen then Some(c.value.(isOpen := false)) else c
  }

  /** Closing twice is closing once. */
  lemma AfterCloseIdempotent(c: Option<Connection>)
    ensures AfterClose(AfterClose(c)) == AfterClose(c)
  {
  }

  /** time.sleep, recorded: the durations slept, in order. */
  class Clock {
    var sleeps: seq<nat>

    constructor ()
      ensures sleeps == []
    {
      sleeps := [];
    }

    method Sleep(seconds: nat)
      modifies this
      ensures sleeps == old(sleeps) + [seconds]
    {
      sleeps := sleeps + [seconds];
    }
  }

  class QueueSender {
    const queueType: string
    const rabbitmqHost: string
    const rabbitmqExchange: string
    const rabbitmqRoutingKey: string
    const rabbitmqVhost: string
    const sqsQueueUrl: string
    var sqsClient: Option<SqsClient>
    var connection: Option<Connection>
    var channel: Option<Channel>
    /** What the backends have accepted from this sender, oldest first. */
    var sent: seq<Publication>

    /** The field assignments that open __init__, before the backend is chosen. */
    constructor (config: Config)
      ensures Settings() == config
      ensures sqsClient == None && connection == None && channel == None && sent == []
    {
      queueType := config.queueType;
      rabbitmqHost := config.rabbitmqHost;
      rabbitmqExchange := config.rabbitmqExchange;
      rabbitmqRoutingKey := config.rabbitmqRoutingKey;
      rabbitmqVhost := config.rabbitmqVhost;
      sqsQueueUrl := config.sqsQueueUrl;
      sqsClient := None;
      connection := None;
      channel := None;
      sent := [];
    }

    function Settings(): Config {
      Config(queueType, rabbitmqHost, rabbitmqExchange, rabbitmqRoutingKey, rabbitmqVhost, sqsQueueUrl)
    }

    /** What health_check reports: an open connection for RabbitMQ, a client
        for SQS. This is the specification of health: New and Close state
        their outcome in its terms, and HealthCheck is proved to compute it. */
    predicate Healthy()
      reads this
    {
      if queueType == "rabbitmq" then connection.Some? && connection.value.isOpen
      else if queueType == "sqs" then sqsClient.Some?
      else false
    }

    /** Where send_message delivers a payload: the configured exchange and
        routing key, or the configured queue URL; nowhere for any other type.
        SendMessage is proved to append exactly this publication. */
    function Route(body: Payload): Option<Publication> {
      if queueType == "rabbitmq" then Some(BasicPublish(rabbitmqExchange, rabbitmqRoutingKey, body))
      else if queueType == "sqs" then Some(SqsSend(sqsQueueUrl, body))
      else None
    }

    /** Whether the backend can take a publish at all: RabbitMQ needs a
        channel on an open connection, SQS a client. */
    predicate Ready()
      reads this
    {
      if queueType == "rabbitmq" then channel.Some? && connection.Some? && connection.value.isOpen
      else sqsClient.Some?
    }

    /** __init__: store the settings, then create the SQS client, connect to
        RabbitMQ, or reject the queue type. The client is created when
        clientOk holds; broker(i) is the outcome of connection attempt i. */
    static method New(config: Config, region: string, clientOk: bool, broker: nat -> ConnectAttempt, clock: Clock)
      returns (r: Result<QueueSender, SenderError>, ghost attempts: nat)
      modifies clock
      ensures r.Success? ==> fresh(r.value) && r.value.Settings() == config && r.value.sent == []
      ensures r.Success? ==> r.value.Healthy()
      ensures config.queueType == "sqs" ==>
        && clock.sleeps == old(clock.sleeps) && attempts == 0
        && (r.Success? <==> clientOk)
        && (r.Success? ==> r.value.sqsClient == Some(SqsClient(region)) && r.value.connection == None && r.value.channel == None)
        && (r.Failure? ==> r.error == ClientError)
      ensures config.queueType == "rabbitmq" ==>
        && (r.Success? <==> FirstOpened(broker, 1).Some?)
        && (r.Success? ==>
              var k := FirstOpened(broker, 1).value;
              && attempts == k && clock.sleeps == old(clock.sleeps) + Waits(k - 1)
              && r.value.connection == Some(Connection(k, true)) && r.value.channel == Some(Channel(k))
              && r.value.sqsClient == None)
        && (r.Failure? ==>
              && r.error == ConnectionError(CONNECT_MESSAGE)
              && attempts == RETRIES && clock.sleeps == old(clock.sleeps) + Waits(RETRIES))
      ensures config.queueType != "sqs" && config.queueType != "rabbitmq" ==>
        r == Failure(ValueError(QUEUE_TYPE_MESSAGE)) && clock.sleeps == old(clock.sleeps) && attempts == 0
    {
      var sender := new QueueSender(config);
      attempts := 0;
      if config.queueType == "sqs" {
        if !clientOk {
          return Failure(ClientError), attempts;
        }
        sender.sqsClient := Some(SqsClient(region));
        r := Success(sender);
      } else if config.queueType == "rabbitmq" {
        var outcome;
        outcome, attempts := sender.ConnectToRabbitmq(broker, clock);
        if outcome.Fail? {
          return Failure(outcome.error), attempts;
        }
        r := Success(sender);
      } else {
        r := Failure(ValueError(QUEUE_TYPE_MESSAGE));
      }
    }

    /** _connect_to_rabbitmq: up to RETRIES attempts, stopping at the first
        that opens a connection and a channel; a wait of RETRY_DELAY follows
        every failed attempt, the last one included. */
    method ConnectToRabbitmq(broker: nat -> ConnectAttempt, clock: Clock)
      returns (r: Outcome<SenderError>, ghost attempts: nat)
      modifies this, clock
      ensures sqsClient == old(sqsClient) && sent == old(sent)
      ensures r.Pass? <==> FirstOpened(broker, 1).Some?
      ensures r.Pass? ==>
        var k := FirstOpened(broker, 1).value;
        && attempts == k && clock.sleeps == old(clock.sleeps) + Waits(k - 1)
        && connection == Some(Connection(k, true)) && channel == Some(Channel(k))
      ensures r.Fail? ==>
        && r.error == ConnectionError(CONNECT_MESSAGE)
        && attempts == RETRIES && clock.sleeps == old(clock.sleeps) + Waits(RETRIES)
        && connection == ConnectionAfter(broker, RETRIES, old(connection)) && channel == old(channel)
    {
      attempts := 0;
      ghost var initial := connection;
      for attempt := 1 to RETRIES + 1
        invariant attempts == attempt - 1
        invariant forall j :: 1 <= j < attempt ==> broker(j) != Opened
        invariant connection == ConnectionAfter(broker, attempt - 1, initial)
        invariant channel == old(channel) && sqsClient == old(sqsClient) && sent == old(sent)
        invariant clock.sleeps == old(clock.sleeps) + Waits(attempt - 1)
      {
        attempts := attempt;
        var outcome := broker(attempt);
        if outcome != Refused {
          connection := Some(Connection(attempt, true));
          if outcome == Opened {
            channel := Some(Channel(attempt));
            FirstOpenedAt(broker, 1, attempt);
            return Pass, attempts;
          }
        }
        ghost var before := clock.sleeps;
        clock.Sleep(RETRY_DELAY);
        assert clock.sleeps == old(clock.sleeps) + Waits(attempt) by {
          assert Waits(attempt) == Waits(attempt - 1) + [RETRY_DELAY];
          assert clock.sleeps == before + [RETRY_DELAY];
        }
      }
      FirstOpenedNone(broker, 1);
      r := Fail(ConnectionError(CONNECT_MESSAGE));
    }

    /** send_message: serialise once and publish to the configured
        destination; a refused publish is raised to the caller, and nothing is
        recorded as sent. `accepted` is the backend's answer. */
    method SendMessage(message: Message, accepted: bool) returns (r: Outcome<SenderError>)
      modifies this`sent
      ensures Route(Serialize(message)).None? ==> r.Pass? && sent == old(sent)
      ensures Route(Serialize(message)).Some? ==>
        && (r.Pass? <==> Ready() && accepted)
        && (r.Pass? ==> sent == old(sent) + [Route(Serialize(message)).value])
        && (r.Fail? ==> r.error == PublishError && sent == old(sent))
    {
      var payload := Serialize(message);
      if queueType == "rabbitmq" {
        if channel.None? || connection.None? || !connection.value.isOpen || !accepted {
          return Fail(PublishError);
        }
        sent := sent + [BasicPublish(rabbitmqExchange, rabbitmqRoutingKey, payload)];
      } else if queueType == "sqs" {
        if sqsClient.None? || !accepted {
          return Fail(PublishError);
        }
        sent := sent + [SqsSend(sqsQueueUrl, payload)];
      }
      r := Pass;
    }

    /** close: close the connection if there is one and it is open. */
    method Close()
      modifies this`connection
      ensures connection == AfterClose(old(connection))
      ensures queueType == "rabbitmq" ==> !Healthy()
    {
      if connection.Some? && connection.value.isOpen {
        connection := Some(connection.value.(isOpen := false));
      }
    }

    /** flush: nothing to do. */
    method Flush()
      ensures unchanged(this)
    {
    }

    /** health_check: reads the state and changes nothing. */
    method HealthCheck() returns (healthy: bool)
      ensures healthy == Healthy()
    {
      if queueType == "rabbitmq" {
        return connection.Some? && connection.value.isOpen;
      }
      if queueType == "sqs" {
        return sqsClient.Some?;
      }
      return false;
    }
  }
}

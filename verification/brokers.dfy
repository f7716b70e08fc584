/**
 * Registering and updating a broker: the exchange's permission report for
 * a key pair decides whether it may be stored, and an update re-checks
 * only when the exchange or the credentials change.
 */
module Brokers {
  import opened Wrappers
  import opened Schema
  import opened Http

  /** The exchange's report on an API key; `enablePortfolioMarginTrading` may be missing from it. */
  datatype Permissions = Permissions(
    enableReading: bool,
    enableSpotAndMarginTrading: bool,
    enableFutures: bool,
    enablePortfolioMarginTrading: Option<bool>,
    ipRestrict: bool,
    createTime: int)

  /** Reading, spot-and-margin and futures trading on, and portfolio margin explicitly off. */
  predicate PermissionsOk(p: Permissions) {
    && p.enableSpotAndMarginTrading
    && p.enablePortfolioMarginTrading == Some(false)
    && p.enableReading
    && p.enableFutures
  }

  /** The request body of both the create and the update route. */
  datatype BrokerBody = BrokerBody(exchange: Exchange, brokerLabel: string, apiKey: string, apiSecret: string)

  /**
   * The permission query is an oracle from a key pair to the exchange's
   * report; `None` is a query that throws (an invalid key, a network
   * error), which the app's error handler answers with 500.
   */
  type PermissionOracle = (string, string) -> Option<Permissions>

  /** The reply, the brokers table afterwards, and how many permission queries went to the exchange. */
  datatype BrokerOutcome = BrokerOutcome(reply: Reply<()>, brokers: BrokerTable, permissionQueries: nat)

  /** The row stored for accepted credentials: the exchange's report fills in the IP restriction and creation time. */
  function AcceptedBroker(userId: string, body: BrokerBody, p: Permissions): Broker {
    Broker(userId, body.exchange, body.brokerLabel, body.apiKey, body.apiSecret, Ok, p.ipRestrict, p.createTime)
  }

  /** The exchange reported on the key pair, and the report grants what the app needs. */
  predicate Approved(query: PermissionOracle, body: BrokerBody) {
    query(body.apiKey, body.apiSecret).Some? && PermissionsOk(query(body.apiKey, body.apiSecret).value)
  }

  /**
   * POST /api/brokers. Only Binance is handled; a store error on insert
   * becomes a 500 reply.
   */
  function RegisterBroker(t: BrokerTable, userId: string, newId: string, body: BrokerBody, query: PermissionOracle)
    : (r: BrokerOutcome)
    ensures body.exchange == Bybit ==> r == BrokerOutcome(NoReply, t, 0)
    ensures body.exchange == Binance ==> r.permissionQueries == 1
    ensures body.exchange == Binance && query(body.apiKey, body.apiSecret).None? ==>
      r == BrokerOutcome(Status(500), t, 1)
    ensures body.exchange == Binance && query(body.apiKey, body.apiSecret).Some? && !Approved(query, body) ==>
      r == BrokerOutcome(Status(400), t, 1)
    ensures r.reply == Status(201) <==>
      && body.exchange == Binance
      && Approved(query, body)
      && newId !in t
      && !ClashesWithOthers(t, newId, AcceptedBroker(userId, body, query(body.apiKey, body.apiSecret).value))
    ensures r.reply == Status(201) ==>
      && Approved(query, body)
      && r.brokers == t[newId := AcceptedBroker(userId, body, query(body.apiKey, body.apiSecret).value)]
    ensures r.reply != Status(201) ==> r.brokers == t
    ensures UniqueBrokers(t) ==> UniqueBrokers(r.brokers)
  {
    match body.exchange
    case Bybit => BrokerOutcome(NoReply, t, 0)
    case Binance =>
      match query(body.apiKey, body.apiSecret)
      case None => BrokerOutcome(Status(500), t, 1)
      case Some(p) =>
        if !PermissionsOk(p) then BrokerOutcome(Status(400), t, 1)
        else
          match InsertBroker(t, newId, AcceptedBroker(userId, body, p))
          case None => BrokerOutcome(Status(500), t, 1)
          case Some(t') => BrokerOutcome(Status(201), t', 1)
  }

  /** The update compares exchange and both credentials with the stored row. */
  predicate CredentialsChanged(current: Broker, body: BrokerBody) {
    body.exchange != current.exchange || body.apiKey != current.apiKey || body.apiSecret != current.apiSecret
  }

  /** `b` is `a` with at most the label changed. */
  predicate SameButLabel(a: Broker, b: Broker) {
    && b.userId == a.userId && b.exchange == a.exchange
    && b.apiKey == a.apiKey && b.apiSecret == a.apiSecret
    && b.status == a.status && b.ipRestricted == a.ipRestricted
    && b.credentialsCreatedAt == a.credentialsCreatedAt
  }

  /** PUT /api/brokers/:id. */
  function UpdateBroker(t: BrokerTable, id: string, body: BrokerBody, query: PermissionOracle): (r: BrokerOutcome)
    ensures id !in t ==> r == BrokerOutcome(Status(400), t, 0)
    ensures r.reply != Status(204) ==> r.brokers == t
    ensures r.reply == Status(204) ==> r.brokers.Keys == t.Keys && id in t
    ensures r.reply == Status(204) ==> forall k :: k in t && k != id ==> r.brokers[k] == t[k]
    // unchanged credentials: the label alone is written, with no query to the exchange
    ensures id in t && !CredentialsChanged(t[id], body) ==>
      && r.permissionQueries == 0
      && (r.reply == Status(204) <==> !ClashesWithOthers(t, id, t[id].(brokerLabel := body.brokerLabel)))
      && (r.reply != Status(204) ==> r.reply == Status(500))
      && (r.reply == Status(204) ==> SameButLabel(t[id], r.brokers[id]) && r.brokers[id].brokerLabel == body.brokerLabel)
    // changed Binance credentials: re-validated, and a failed check leaves the table as it was
    ensures id in t && CredentialsChanged(t[id], body) && body.exchange == Binance ==>
      && r.permissionQueries == 1
      && (query(body.apiKey, body.apiSecret).None? ==> r.reply == Status(500))
      && (query(body.apiKey, body.apiSecret).Some? && !Approved(query, body) ==> r.reply == Status(400))
      && (Approved(query, body) ==>
            (r.reply == Status(204) <==>
               !ClashesWithOthers(t, id, AcceptedBroker(t[id].userId, body, query(body.apiKey, body.apiSecret).value))))
      && (r.reply == Status(204) ==>
            Approved(query, body) &&
            r.brokers[id] == AcceptedBroker(t[id].userId, body, query(body.apiKey, body.apiSecret).value))
    ensures id in t && CredentialsChanged(t[id], body) && body.exchange == Bybit ==>
      r == BrokerOutcome(NoReply, t, 0)
    ensures UniqueBrokers(t) ==> UniqueBrokers(r.brokers)
  {
    if id !in t then BrokerOutcome(Status(400), t, 0)
    else
      var current := t[id];
      if CredentialsChanged(current, body) then
        match body.exchange
        case Bybit => BrokerOutcome(NoReply, t, 0)
        case Binance =>
          match query(body.apiKey, body.apiSecret)
          case None => BrokerOutcome(Status(500), t, 1)
          case Some(p) =>
            if !PermissionsOk(p) then BrokerOutcome(Status(400), t, 1)
            else
              match WriteBroker(t, id, AcceptedBroker(current.userId, body, p))
              case None => BrokerOutcome(Status(500), t, 1)
              case Some(t') => BrokerOutcome(Status(204), t', 1)
      else
        match WriteBroker(t, id, current.(brokerLabel := body.brokerLabel))
        case None => BrokerOutcome(Status(500), t, 0)
        case Some(t') => BrokerOutcome(Status(204), t', 0)
  }

  /**
   * Submitting the stored exchange and credentials again with a new label
   * changes the label and nothing else, whatever the exchange would report.
   */
  lemma LabelOnlyUpdate(t: BrokerTable, id: string, newLabel: string, q1: PermissionOracle, q2: PermissionOracle)
    requires id in t && UniqueBrokers(t)
    requires forall other :: other in t && other != id ==> t[other].userId != t[id].userId || t[other].brokerLabel != newLabel
    ensures var body := BrokerBody(t[id].exchange, newLabel, t[id].apiKey, t[id].apiSecret);
      && UpdateBroker(t, id, body, q1) == UpdateBroker(t, id, body, q2)
      && UpdateBroker(t, id, body, q1).reply == Status(204)
      && UpdateBroker(t, id, body, q1).brokers == t[id := t[id].(brokerLabel := newLabel)]
  {
    var b := t[id].(brokerLabel := newLabel);
    assert !ClashesWithOthers(t, id, b) by {
      forall other | other in t && other != id ensures !Clash(t[other], b) {
        assert !Clash(t[other], t[id]);
      }
    }
  }
}

/**
 * The ticket lifecycle and its outbox writes (apps/api/src/ticket/ticket.service.ts).
 *
 * The ticket table and the outbox table together form a `Store`. Each operation
 * of the service is first given as a transition on stores (`CreateTicket`,
 * `ValidateTicket`, `DeleteTicket`, `ActivateTicket`, `SetTicketError`), whose
 * contracts and the lemmas after them state what the service promises. The class
 * `TicketService` then performs the same operations step by step, the way the
 * service does inside its database transaction, and is proved to commit exactly
 * the transition's store or, on failure, to leave both tables as they were.
 */
module TicketLifecycle {
  import opened Wrappers
  import opened TicketTypes

  /** An instant, as produced by `new Date()`; the caller supplies it. */
  type Timestamp = int

  /** Only Level2 providers ask for the ticket owner's data to be encrypted into the create message. */
  datatype SecurityLevel = Level1 | Level2

  datatype TicketProvider = TicketProvider(id: nat, securityLevel: SecurityLevel)

  /** A row of the ticket table; nullable columns are `Option`s. */
  datatype Ticket = Ticket(
    uuid: string,
    ticketProviderId: nat,
    userId: nat,
    eventId: nat,
    ticketTypeId: nat,
    status: TicketStatus,
    imageUrl: string,
    contractId: Option<string>,
    tokenId: Option<int>,
    ipfsUri: Option<string>,
    transactionHash: Option<string>,
    errorData: Option<string>,
    validatedAt: Option<Timestamp>,
    deletedAt: Option<Timestamp>)

  datatype OutboxStatus = Created | Sent

  /** The messages the service writes to the outbox. */
  datatype Payload =
    | TicketCreateMessage(ticket: Ticket, userId: nat, encryptedData: Option<string>)
    | TicketValidateMessage(ticket: Ticket)
    | TicketDeleteMessage(deleted: Option<Ticket>)  // None: no ticket had the uuid

  /** A row of the outbox table. */
  datatype OutboxRecord = OutboxRecord(eventName: TicketEventPattern, payload: Payload, status: OutboxStatus)

  /** What an operation can throw. */
  datatype Error =
    | BadRequest(message: string)  // raised by the service itself
    | UniqueViolation(uuid: string)  // the ticket table already holds a row with this uuid
    | Raised(reason: string)  // raised by the store or by a collaborator

  const TICKET_NOT_FOUND: string := "Ticket not found"

  /** The two tables a transaction reads and writes. */
  datatype Store = Store(tickets: map<string, Ticket>, outbox: seq<OutboxRecord>)

  /** What a transactional operation returns, and the store it leaves behind. */
  datatype Tx<T> = Tx(result: Result<T, Error>, store: Store)

  /** The parts of the create request the service reads itself. */
  datatype CreateTicketBody = CreateTicketBody(ticketProvider: TicketProvider, imageUrl: Option<string>)

  /**
   * The answers of the collaborators `create` calls inside its transaction:
   * the user, event and ticket type find-or-create services (their ids) and
   * the provider's encryption of the user's data.
   */
  datatype Collaborators = Collaborators(
    user: Result<nat, Error>,
    event: Result<nat, Error>,
    ticketType: Result<nat, Error>,
    encryption: Result<string, Error>)

  /** A new outbox record is written with status Created. */
  function Record(eventName: TicketEventPattern, payload: Payload): OutboxRecord
  {
    OutboxRecord(eventName, payload, Created)
  }

  /** A terminal-looking status always carries the timestamp of the transition that set it. */
  predicate TicketWellFormed(t: Ticket)
  {
    && (t.status == Validated ==> t.validatedAt.Some?)
    && (t.status == Deleted ==> t.deletedAt.Some?)
  }

  /** A record written by the service: still Created, and its payload agrees with its topic. */
  predicate RecordWellFormed(r: OutboxRecord)
  {
    && r.status == Created
    && match r.payload
       case TicketCreateMessage(_, _, _) => r.eventName == TicketCreate
       case TicketValidateMessage(t) => r.eventName == TicketValidate && t.status == Validated && TicketWellFormed(t)
       case TicketDeleteMessage(d) => r.eventName == TicketDelete && (d.Some? ==> d.value.status == Deleted && TicketWellFormed(d.value))
  }

  /** Every ticket is stored under its own uuid and is well formed. */
  ghost predicate TicketsWellFormed(tickets: map<string, Ticket>)
  {
    forall u :: u in tickets ==> tickets[u].uuid == u && TicketWellFormed(tickets[u])
  }

  /** The invariant of the two tables. */
  ghost predicate WellFormed(s: Store)
  {
    && TicketsWellFormed(s.tickets)
    && (forall i :: 0 <= i < |s.outbox| ==> RecordWellFormed(s.outbox[i]))
  }

  /** Committing well-formed tickets and one more well-formed record keeps the invariant. */
  lemma CommitPreservesWellFormed(s: Store, tickets: map<string, Ticket>, r: OutboxRecord)
    ensures WellFormed(s) && TicketsWellFormed(tickets) && RecordWellFormed(r) ==> WellFormed(Store(tickets, s.outbox + [r]))
  {
    if WellFormed(s) && TicketsWellFormed(tickets) && RecordWellFormed(r) {
      var out := s.outbox + [r];
      forall i | 0 <= i < |out| ensures RecordWellFormed(out[i]) {
        if i < |s.outbox| { assert out[i] == s.outbox[i]; }
      }
    }
  }

  /** `body.imageUrl || DEFAULT_IMAGE`: an absent or empty image falls back to the default. */
  function ImageOrDefault(imageUrl: Option<string>): string
  {
    if imageUrl.Some? && imageUrl.value != "" then imageUrl.value else DEFAULT_IMAGE
  }

  /**
   * `getEncryptedUserData`: the encrypted user data belongs in the create message
   * only for Level2 providers; for any other level the encryption is not even
   * attempted, and the field is left out rather than sent empty.
   */
  function GetEncryptedUserData(level: SecurityLevel, encryption: Result<string, Error>): (r: Result<Option<string>, Error>)
    ensures level != Level2 ==> r == Success(None)
    ensures r.Success? && r.value.Some? <==> level == Level2 && encryption.Success?
    ensures r.Success? && r.value.Some? ==> r.value.value == encryption.value
    ensures r.Failure? <==> level == Level2 && encryption.Failure?
    ensures r.Failure? ==> r.error == encryption.error
  {
    if level != Level2 then Success(None)
    else match encryption
      case Success(data) => Success(Some(data))
      case Failure(e) => Failure(e)
  }

  /** The row `create` inserts; a new ticket starts its lifecycle in Creating. */
  function NewTicket(uuid: string, body: CreateTicketBody, userId: nat, eventId: nat, ticketTypeId: nat): Ticket
  {
    Ticket(uuid, body.ticketProvider.id, userId, eventId, ticketTypeId, Creating, ImageOrDefault(body.imageUrl),
           None, None, None, None, None, None, None)
  }

  /** Everything `create` needs before it can commit. */
  predicate CreateCanCommit(s: Store, body: CreateTicketBody, uuid: string, env: Collaborators, fault: Option<Error>)
  {
    && env.user.Success? && env.event.Success? && env.ticketType.Success?
    && (body.ticketProvider.securityLevel == Level2 ==> env.encryption.Success?)
    && uuid !in s.tickets
    && fault.None?
  }

  /**
   * `create`: find or create the user, event and ticket type, insert the ticket
   * under the uuid the store assigns, and write one `ticket.create` record, all in
   * one transaction. `fault` is an error the store raises while writing or
   * committing. The first error raised is rethrown and nothing is written.
   */
  function CreateTicket(s: Store, body: CreateTicketBody, uuid: string, env: Collaborators, fault: Option<Error>): (tx: Tx<Ticket>)
    ensures tx.result.Success? <==> CreateCanCommit(s, body, uuid, env, fault)
    ensures tx.result.Failure? ==> tx.store == s
    ensures env.user.Failure? ==> tx.result == Failure(env.user.error)
    ensures env.user.Success? && env.event.Failure? ==> tx.result == Failure(env.event.error)
    ensures env.user.Success? && env.event.Success? && env.ticketType.Failure? ==> tx.result == Failure(env.ticketType.error)
    ensures && env.user.Success? && env.event.Success? && env.ticketType.Success?
            && body.ticketProvider.securityLevel == Level2 && env.encryption.Failure?
            ==> tx.result == Failure(env.encryption.error)
    ensures && env.user.Success? && env.event.Success? && env.ticketType.Success?
            && GetEncryptedUserData(body.ticketProvider.securityLevel, env.encryption).Success?
            ==> && (uuid in s.tickets ==> tx.result == Failure(UniqueViolation(uuid)))
                && (uuid !in s.tickets && fault.Some? ==> tx.result == Failure(fault.value))
    ensures tx.result.Success? ==>
              && tx.store.tickets == s.tickets[uuid := tx.result.value]
              && tx.result.value.uuid == uuid
              && tx.result.value.ticketProviderId == body.ticketProvider.id
              && tx.result.value.userId == env.user.value
              && tx.result.value.eventId == env.event.value
              && tx.result.value.ticketTypeId == env.ticketType.value
              && tx.result.value.status == Creating
              && tx.result.value.contractId.None? && tx.result.value.tokenId.None?
              && tx.result.value.ipfsUri.None? && tx.result.value.transactionHash.None?
              && tx.result.value.errorData.None?
              && tx.result.value.validatedAt.None? && tx.result.value.deletedAt.None?
              && tx.result.value.imageUrl == (if body.imageUrl.Some? && body.imageUrl.value != "" then body.imageUrl.value else DEFAULT_IMAGE)
              && |tx.store.outbox| == |s.outbox| + 1
              && tx.store.outbox[..|s.outbox|] == s.outbox
              && tx.store.outbox[|s.outbox|].eventName == TicketCreate
              && tx.store.outbox[|s.outbox|].payload
                 == TicketCreateMessage(tx.result.value, env.user.value,
                                        if body.ticketProvider.securityLevel == Level2 then Some(env.encryption.value) else None)
    ensures WellFormed(s) ==> WellFormed(tx.store)
  {
    if env.user.Failure? then Tx(Failure(env.user.error), s)
    else if env.event.Failure? then Tx(Failure(env.event.error), s)
    else if env.ticketType.Failure? then Tx(Failure(env.ticketType.error), s)
    else
      var encrypted := GetEncryptedUserData(body.ticketProvider.securityLevel, env.encryption);
      if encrypted.Failure? then Tx(Failure(encrypted.error), s)
      else if uuid in s.tickets then Tx(Failure(UniqueViolation(uuid)), s)
      else if fault.Some? then Tx(Failure(fault.value), s)
      else
        var t := NewTicket(uuid, body, env.user.value, env.event.value, env.ticketType.value);
        var r := Record(TicketCreate, TicketCreateMessage(t, env.user.value, encrypted.value));
        CommitPreservesWellFormed(s, s.tickets[uuid := t], r);
        Tx(Success(t), Store(s.tickets[uuid := t], s.outbox + [r]))
  }

  /** The row lock of `validate` selects an Active ticket of the calling provider with this uuid. */
  predicate Validatable(s: Store, uuid: string, ticketProviderId: nat)
  {
    uuid in s.tickets && s.tickets[uuid].ticketProviderId == ticketProviderId && s.tickets[uuid].status == Active
  }

  /**
   * `validate`: a ticket of the caller that is Active becomes Validated, stamped
   * with `now`, and one `ticket.validate` record carrying the updated row is
   * written; any other ticket is "not found" and nothing is written.
   */
  function ValidateTicket(s: Store, uuid: string, ticketProviderId: nat, now: Timestamp, fault: Option<Error>): (tx: Tx<Ticket>)
    ensures tx.result.Success? <==> Validatable(s, uuid, ticketProviderId) && fault.None?
    ensures !Validatable(s, uuid, ticketProviderId) ==> tx.result == Failure(BadRequest(TICKET_NOT_FOUND))
    ensures Validatable(s, uuid, ticketProviderId) && fault.Some? ==> tx.result == Failure(fault.value)
    ensures tx.result.Failure? ==> tx.store == s
    ensures tx.result.Success? ==>
              && tx.result.value == s.tickets[uuid].(status := Validated, validatedAt := Some(now))
              && tx.store.tickets.Keys == s.tickets.Keys
              && tx.store.tickets[uuid] == tx.result.value
              && (forall u :: u in s.tickets && u != uuid ==> tx.store.tickets[u] == s.tickets[u])
              && tx.store.outbox == s.outbox + [Record(TicketValidate, TicketValidateMessage(tx.result.value))]
    ensures WellFormed(s) ==> WellFormed(tx.store)
  {
    if !Validatable(s, uuid, ticketProviderId) then Tx(Failure(BadRequest(TICKET_NOT_FOUND)), s)
    else if fault.Some? then Tx(Failure(fault.value), s)
    else
      var t := s.tickets[uuid].(status := Validated, validatedAt := Some(now));
      var r := Record(TicketValidate, TicketValidateMessage(t));
      CommitPreservesWellFormed(s, s.tickets[uuid := t], r);
      Tx(Success(t), Store(s.tickets[uuid := t], s.outbox + [r]))
  }

  /**
   * `delete`: whatever its status, the ticket with this uuid becomes Deleted,
   * stamped with `now`, and one `ticket.delete` record carrying the reloaded row
   * is written. An unknown uuid changes no ticket, yet the record is still
   * written, with no ticket in it.
   */
  function DeleteTicket(s: Store, uuid: string, now: Timestamp, fault: Option<Error>): (tx: Tx<()>)
    ensures tx.result.Failure? <==> fault.Some?
    ensures tx.result.Failure? ==> tx.result.error == fault.value && tx.store == s
    ensures tx.result.Success? ==>
              && tx.store.tickets.Keys == s.tickets.Keys
              && (forall u :: u in s.tickets && u != uuid ==> tx.store.tickets[u] == s.tickets[u])
              && (uuid in s.tickets ==> tx.store.tickets[uuid] == s.tickets[uuid].(status := Deleted, deletedAt := Some(now)))
              && tx.store.outbox == s.outbox + [Record(TicketDelete, TicketDeleteMessage(
                                                  if uuid in s.tickets then Some(tx.store.tickets[uuid]) else None))]
    ensures WellFormed(s) ==> WellFormed(tx.store)
  {
    if fault.Some? then Tx(Failure(fault.value), s)
    else
      var tickets := if uuid in s.tickets then s.tickets[uuid := s.tickets[uuid].(status := Deleted, deletedAt := Some(now))] else s.tickets;
      var r := Record(TicketDelete, TicketDeleteMessage(if uuid in tickets then Some(tickets[uuid]) else None));
      CommitPreservesWellFormed(s, tickets, r);
      Tx(Success(()), Store(tickets, s.outbox + [r]))
  }

  /** The row `activate` leaves: the minting result recorded, Active, and no error. */
  function Activated(t: Ticket, contractId: string, tokenId: int, ipfsUri: string, transactionHash: string): Ticket
  {
    t.(contractId := Some(contractId), tokenId := Some(tokenId), ipfsUri := Some(ipfsUri),
       status := Active, transactionHash := Some(transactionHash), errorData := None)
  }

  /**
   * `activate`: a single update, outside any transaction, that records the
   * minting result on the ticket with this uuid, makes it Active whatever its
   * status was, and clears its error. It writes no outbox record.
   */
  function ActivateTicket(s: Store, uuid: string, contractId: string, tokenId: int, ipfsUri: string, transactionHash: string): (s': Store)
    ensures s'.outbox == s.outbox
    ensures s'.tickets.Keys == s.tickets.Keys
    ensures forall u :: u in s.tickets && u != uuid ==> s'.tickets[u] == s.tickets[u]
    ensures uuid in s.tickets ==>
              var t := s'.tickets[uuid];
              && t.status == Active && t.errorData.None?
              && t.contractId == Some(contractId) && t.tokenId == Some(tokenId)
              && t.ipfsUri == Some(ipfsUri) && t.transactionHash == Some(transactionHash)
              && t.(contractId := None, tokenId := None, ipfsUri := None, status := Creating, transactionHash := None, errorData := None)
                 == s.tickets[uuid].(contractId := None, tokenId := None, ipfsUri := None, status := Creating, transactionHash := None, errorData := None)
    ensures WellFormed(s) ==> WellFormed(s')
  {
    if uuid in s.tickets
    then Store(s.tickets[uuid := Activated(s.tickets[uuid], contractId, tokenId, ipfsUri, transactionHash)], s.outbox)
    else s
  }

  /** `setError`: a single update that records `errorData` on the ticket with this uuid and changes nothing else. */
  function SetTicketError(s: Store, uuid: string, errorData: string): (s': Store)
    ensures s'.outbox == s.outbox
    ensures s'.tickets.Keys == s.tickets.Keys
    ensures forall u :: u in s.tickets && u != uuid ==> s'.tickets[u] == s.tickets[u]
    ensures uuid in s.tickets ==> s'.tickets[uuid] == s.tickets[uuid].(errorData := Some(errorData))
    ensures WellFormed(s) ==> WellFormed(s')
  {
    if uuid in s.tickets then Store(s.tickets[uuid := s.tickets[uuid].(errorData := Some(errorData))], s.outbox) else s
  }

  /** Once validated, a ticket cannot be validated again, by any provider: the row lock no longer finds it. */
  lemma ValidateTwiceFails(s: Store, uuid: string, ticketProviderId: nat, now: Timestamp,
                           otherProviderId: nat, later: Timestamp, fault: Option<Error>)
    requires ValidateTicket(s, uuid, ticketProviderId, now, None).result.Success?
    ensures var s1 := ValidateTicket(s, uuid, ticketProviderId, now, None).store;
            ValidateTicket(s1, uuid, otherProviderId, later, fault) == Tx(Failure(BadRequest(TICKET_NOT_FOUND)), s1)
  {
    var s1 := ValidateTicket(s, uuid, ticketProviderId, now, None).store;
    assert s1.tickets[uuid].status == Validated;
  }

  /** A deleted ticket can no longer be validated. */
  lemma DeletedTicketIsNotValidatable(s: Store, uuid: string, now: Timestamp, ticketProviderId: nat, later: Timestamp, fault: Option<Error>)
    requires DeleteTicket(s, uuid, now, None).result.Success?
    ensures var s1 := DeleteTicket(s, uuid, now, None).store;
            ValidateTicket(s1, uuid, ticketProviderId, later, fault) == Tx(Failure(BadRequest(TICKET_NOT_FOUND)), s1)
  {
    var s1 := DeleteTicket(s, uuid, now, None).store;
    assert uuid in s1.tickets ==> s1.tickets[uuid].status == Deleted;
  }

  /** Replaying the same activation changes nothing more. */
  lemma ActivateIdempotent(s: Store, uuid: string, contractId: string, tokenId: int, ipfsUri: string, transactionHash: string)
    ensures var once := ActivateTicket(s, uuid, contractId, tokenId, ipfsUri, transactionHash);
            ActivateTicket(once, uuid, contractId, tokenId, ipfsUri, transactionHash) == once
  {
    var once := ActivateTicket(s, uuid, contractId, tokenId, ipfsUri, transactionHash);
    if uuid in s.tickets {
      assert once.tickets[uuid] == Activated(s.tickets[uuid], contractId, tokenId, ipfsUri, transactionHash);
      assert once.tickets[uuid := Activated(once.tickets[uuid], contractId, tokenId, ipfsUri, transactionHash)] == once.tickets;
    }
  }

  /** `activate` does not look at the status: a validated or deleted ticket becomes Active again. */
  lemma ActivateRevivesAnyStatus(s: Store, uuid: string, contractId: string, tokenId: int, ipfsUri: string, transactionHash: string)
    requires uuid in s.tickets && s.tickets[uuid].status in {Validated, Deleted}
    ensures ActivateTicket(s, uuid, contractId, tokenId, ipfsUri, transactionHash).tickets[uuid].status == Active
  {
  }

  /**
   * The life of one ticket: created (Creating, so not yet validatable), activated
   * by the minting reply, validated once, and refused the second time; the outbox
   * then holds exactly the create and the validate records, in that order.
   */
  lemma CreateActivateValidateScenario(s: Store, body: CreateTicketBody, uuid: string, env: Collaborators,
                                       contractId: string, tokenId: int, ipfsUri: string, transactionHash: string,
                                       t1: Timestamp, t2: Timestamp, t3: Timestamp)
    requires CreateCanCommit(s, body, uuid, env, None)
    ensures var created := CreateTicket(s, body, uuid, env, None);
            var pid := body.ticketProvider.id;
            && ValidateTicket(created.store, uuid, pid, t1, None).result == Failure(BadRequest(TICKET_NOT_FOUND))
            && var active := ActivateTicket(created.store, uuid, contractId, tokenId, ipfsUri, transactionHash);
               var validated := ValidateTicket(active, uuid, pid, t2, None);
               && validated.result.Success?
               && ValidateTicket(validated.store, uuid, pid, t3, None).result == Failure(BadRequest(TICKET_NOT_FOUND))
               && |validated.store.outbox| == |s.outbox| + 2
               && validated.store.outbox[|s.outbox|].eventName == TicketCreate
               && validated.store.outbox[|s.outbox| + 1].eventName == TicketValidate
  {
    var created := CreateTicket(s, body, uuid, env, None);
    var pid := body.ticketProvider.id;
    var active := ActivateTicket(created.store, uuid, contractId, tokenId, ipfsUri, transactionHash);
    assert Validatable(active, uuid, pid);
    var validated := ValidateTicket(active, uuid, pid, t2, None);
    ValidateTwiceFails(active, uuid, pid, t2, pid, t3, None);
    assert validated.store.outbox == created.store.outbox + [validated.store.outbox[|s.outbox| + 1]];
  }

  /**
   * The service: the ticket table and the outbox, changed only by its methods.
   * A transactional method works on copies of both tables and assigns them back
   * only at commit, so a failure at any step rolls back by not assigning.
   */
  class TicketService {
    var tickets: map<string, Ticket>
    var outbox: seq<OutboxRecord>

    ghost predicate Valid()
      reads this
    {
      WellFormed(Store(tickets, outbox))
    }

    function State(): Store
      reads this
    {
      Store(tickets, outbox)
    }

    constructor ()
      ensures Valid() && tickets == map[] && outbox == []
    {
      tickets := map[];
      outbox := [];
    }

    /** `create`, step by step; commits what CreateTicket describes, or nothing. */
    method Create(body: CreateTicketBody, uuid: string, env: Collaborators, fault: Option<Error>) returns (r: Result<Ticket, Error>)
      requires Valid()
      modifies this
      ensures Valid()
      ensures Tx(r, State()) == CreateTicket(old(State()), body, uuid, env, fault)
      ensures r.Failure? ==> tickets == old(tickets) && outbox == old(outbox)
    {
      // startTransaction: the transaction writes to its own copies
      var txTickets, txOutbox := tickets, outbox;
      if env.user.Failure? { return Failure(env.user.error); }
      var userId := env.user.value;
      if env.event.Failure? { return Failure(env.event.error); }
      var eventId := env.event.value;
      if env.ticketType.Failure? { return Failure(env.ticketType.error); }
      var ticketTypeId := env.ticketType.value;
      var encrypted := GetEncryptedUserData(body.ticketProvider.securityLevel, env.encryption);
      if encrypted.Failure? { return Failure(encrypted.error); }
      // insert the ticket row; the uuid column is unique
      if uuid in txTickets { return Failure(UniqueViolation(uuid)); }
      var imageUrl := if body.imageUrl.Some? && body.imageUrl.value != "" then body.imageUrl.value else DEFAULT_IMAGE;
      txTickets := txTickets[uuid := Ticket(uuid, body.ticketProvider.id, userId, eventId, ticketTypeId, Creating, imageUrl,
                                            None, None, None, None, None, None, None)];
      // reload the inserted row and write the outbox record
      var ticket := txTickets[uuid];
      txOutbox := txOutbox + [OutboxRecord(TicketCreate, TicketCreateMessage(ticket, userId, encrypted.value), Created)];
      if fault.Some? { return Failure(fault.value); }
      // commitTransaction
      tickets, outbox := txTickets, txOutbox;
      r := Success(ticket);
    }

    /** `validate`, step by step; commits what ValidateTicket describes, or nothing. */
    method Validate(ticketUuid: string, ticketProviderId: nat, now: Timestamp, fault: Option<Error>) returns (r: Result<Ticket, Error>)
      requires Valid()
      modifies this
      ensures Valid()
      ensures Tx(r, State()) == ValidateTicket(old(State()), ticketUuid, ticketProviderId, now, fault)
      ensures r.Failure? ==> tickets == old(tickets) && outbox == old(outbox)
    {
      var txTickets, txOutbox := tickets, outbox;
      // select for update: uuid, provider and status Active
      if !(ticketUuid in txTickets && txTickets[ticketUuid].ticketProviderId == ticketProviderId && txTickets[ticketUuid].status == Active) {
        return Failure(BadRequest(TICKET_NOT_FOUND));
      }
      // update by uuid, then reload
      txTickets := txTickets[ticketUuid := txTickets[ticketUuid].(status := Validated, validatedAt := Some(now))];
      var validatedTicket := txTickets[ticketUuid];
      txOutbox := txOutbox + [OutboxRecord(TicketValidate, TicketValidateMessage(validatedTicket), Created)];
      if fault.Some? { return Failure(fault.value); }
      tickets, outbox := txTickets, txOutbox;
      r := Success(validatedTicket);
    }

    /** `delete`, step by step; commits what DeleteTicket describes, or nothing. */
    method Delete(uuid: string, now: Timestamp, fault: Option<Error>) returns (r: Result<(), Error>)
      requires Valid()
      modifies this
      ensures Valid()
      ensures Tx(r, State()) == DeleteTicket(old(State()), uuid, now, fault)
      ensures r.Failure? ==> tickets == old(tickets) && outbox == old(outbox)
    {
      var txTickets, txOutbox := tickets, outbox;
      // update by uuid: no row matches an unknown uuid
      if uuid in txTickets {
        txTickets := txTickets[uuid := txTickets[uuid].(status := Deleted, deletedAt := Some(now))];
      }
      // reload: null for an unknown uuid
      var deletedTicket := if uuid in txTickets then Some(txTickets[uuid]) else None;
      txOutbox := txOutbox + [OutboxRecord(TicketDelete, TicketDeleteMessage(deletedTicket), Created)];
      if fault.Some? { return Failure(fault.value); }
      tickets, outbox := txTickets, txOutbox;
      r := Success(());
    }

    /** `activate`: one update by uuid, no transaction, no outbox record. */
    method Activate(uuid: string, contractId: string, tokenId: int, ipfsUri: string, transactionHash: string)
      requires Valid()
      modifies this
      ensures Valid()
      ensures State() == ActivateTicket(old(State()), uuid, contractId, tokenId, ipfsUri, transactionHash)
    {
      if uuid in tickets {
        tickets := tickets[uuid := tickets[uuid].(contractId := Some(contractId), tokenId := Some(tokenId), ipfsUri := Some(ipfsUri),
                                                  status := Active, transactionHash := Some(transactionHash), errorData := None)];
      }
    }

    /** `setError`: one update by uuid of the error column only. */
    method SetError(uuid: string, errorData: string)
      requires Valid()
      modifies this
      ensures Valid()
      ensures State() == SetTicketError(old(State()), uuid, errorData)
    {
      if uuid in tickets {
        tickets := tickets[uuid := tickets[uuid].(errorData := Some(errorData))];
      }
    }
  }
}

# Ticket lifecycle and outbox — a Dafny model

This project models the core of a multi-tenant ticketing backend. Each write to a
ticket is paired with a record in an outbox table, inside the same database
transaction, so that downstream workers (minting, notifications) see an event
exactly when the ticket change is committed.

The model covers four parts of the repository:

- **Ticket lifecycle** (`ticket_service.dfy`, module `TicketLifecycle`). The ticket
  table (a `map` keyed by uuid) and the append-only outbox (a `seq` of
  `(eventName, payload, status)` records) form a `Store`. Each service operation is
  given twice:
  - as a transition on stores (`CreateTicket`, `ValidateTicket`, `DeleteTicket`,
    `ActivateTicket`, `SetTicketError`), whose contracts and the lemmas after them
    state what the service promises;
  - as a method of the class `TicketService`, whose fields are the two tables. The
    method runs the same steps as the service: begin, look up, update, reload,
    append to the outbox, commit.
  A transactional method writes to local copies of both tables and assigns the
  fields back only at commit. Returning a `Failure` before that point is the
  rollback. Each method is proved to commit exactly the transition's store, or to
  leave both tables unchanged, and to keep the table invariant `WellFormed`. That
  invariant says: every ticket is stored under its own uuid; a Validated ticket has
  `validatedAt`; a Deleted ticket has `deletedAt`; every outbox record is still
  `Created`; and every payload matches its topic.
- **Ticket enumerations** (`ticket_types.dfy`, module `TicketTypes`). The status and
  event-pattern enums, their string values and their parsers, the `.reply` naming
  convention, and `DEFAULT_IMAGE`.
- **Locale overlay** (`translation.dfy`, module `Translation`). `mapEntity` is a
  method whose loop runs the filter and the reduce, with the accumulator local to
  the loop. It is proved equal to `Localized`, the entity with `Overlay` assigned
  over its attributes.
- **Event find-or-create** (`event_repository.dfy`, module `Events`). The class
  `EventRepository` holds the event table as a `seq` plus the next id the store will
  assign. `createOrInsert` is proved equal to the transition `AfterCreateOrInsert`.

Inputs the code takes from its environment are parameters:

- `new Date()` becomes a `Timestamp` argument.
- The uuid the store gives a new ticket is an argument.
- The answers of the user, event and ticket-type find-or-create services, and of the
  provider's encryption service, are `Result` values (`Collaborators`).
- An error the database raises while a transaction writes or commits is
  `fault: Option<Error>`.
- The ticket table's uuid column is taken to be unique. A create under a uuid already in
  the table fails with `UniqueViolation` and rolls back.

Behaviour of the code worth noting:

- `activate` does not look at the ticket's status. So a Validated or Deleted ticket
  can become Active again (`ActivateRevivesAnyStatus`).
- `delete` has no precondition on status, including Deleted. For an unknown uuid it
  still writes a `ticket.delete` record, whose ticket is null.
- The entity's default status is not part of this model. A created ticket is stored
  as `Creating`, so it cannot be validated until `activate` makes it Active
  (`CreateActivateValidateScenario`).

## Model

| member | source | states |
|---|---|---|
| `TicketTypes.ParseStatus` | libs/ticket/src/ticket.types.ts:5-10 | parsing a string gives status `s` exactly when `s` is stored as that string, so parsing inverts the encoding |
| `TicketTypes.StatusEncodingInjective` | libs/ticket/src/ticket.types.ts:5-10 | the four status strings are pairwise distinct, and every status survives a round trip through its string |
| `TicketTypes.ParsePattern` | libs/ticket/src/ticket.types.ts:12-18 | parsing a topic gives pattern `p` exactly when `p`'s topic is that string |
| `TicketTypes.PatternEncodingInjective` | libs/ticket/src/ticket.types.ts:12-18 | the five topic strings are pairwise distinct, and every pattern survives a round trip through its topic |
| `TicketTypes.ReplyPattern` | libs/ticket/src/ticket.types.ts:12-18 | the reply to a pattern is the pattern whose topic is the request topic followed by `.reply`, when one is declared |
| `TicketTypes.ReplyPatterns` | libs/ticket/src/ticket.types.ts:13-17 | `ticket.create` and `ticket.delete` have the replies `ticket.create.reply` and `ticket.delete.reply`; `ticket.validate` and the replies themselves have none |
| `TicketLifecycle.GetEncryptedUserData` | apps/api/src/ticket/ticket.service.ts:186-197 | the encrypted data is present only for a Level2 provider whose encryption succeeded; any other level gives no field and does not consult the encryption; an encryption error is passed on unchanged |
| `TicketLifecycle.CreateTicket` | apps/api/src/ticket/ticket.service.ts:45-97 | commits only when every collaborator succeeds, the uuid is new and the store raises nothing. Any other case keeps the store and rethrows the first error unchanged. On success it stores one Creating ticket under the uuid, owned by the provider, carrying the user, event and ticket-type ids the collaborators returned and no minting, error, validation or deletion columns, with `imageUrl` or `DEFAULT_IMAGE` when that is absent or empty. It appends exactly one `ticket.create` record carrying that ticket, the user id and, only for Level2, the encrypted data. It keeps `WellFormed` |
| `TicketLifecycle.ValidateTicket` | apps/api/src/ticket/ticket.service.ts:99-138 | succeeds iff the caller's ticket with that uuid is Active and the store raises nothing. When there is no such ticket the error is "Ticket not found"; when there is one and the store raises an error, that error is rethrown unchanged. On failure the store is unchanged. On success only that ticket changes, to Validated stamped with `now`. The returned ticket is the stored one, and exactly one `ticket.validate` record carrying it is appended. It keeps `WellFormed` |
| `TicketLifecycle.DeleteTicket` | apps/api/src/ticket/ticket.service.ts:140-167 | fails only with the store's error, leaving the store unchanged. Otherwise the ticket with that uuid, whatever its status, becomes Deleted stamped with `now`, and no other ticket changes. Exactly one `ticket.delete` record is appended, carrying the reloaded ticket, or none for an unknown uuid. It keeps `WellFormed` |
| `TicketLifecycle.ActivateTicket` | apps/api/src/ticket/ticket.service.ts:169-180 | sets `contractId`, `tokenId`, `ipfsUri`, `transactionHash` and status Active, and clears `errorData`, without checking the prior status. All other columns and tickets are kept, and the outbox is untouched. It keeps `WellFormed` |
| `TicketLifecycle.SetTicketError` | apps/api/src/ticket/ticket.service.ts:182-184 | changes only `errorData` of the ticket with that uuid; the outbox is untouched |
| `TicketLifecycle.ValidateTwiceFails` | apps/api/src/ticket/ticket.service.ts:106-121 | after a successful validate, a second validate of the same uuid, by any provider, fails with "Ticket not found" and changes nothing |
| `TicketLifecycle.DeletedTicketIsNotValidatable` | apps/api/src/ticket/ticket.service.ts:106-152 | after a delete, validating that uuid fails with "Ticket not found" and changes nothing |
| `TicketLifecycle.ActivateIdempotent` | apps/api/src/ticket/ticket.service.ts:176-179 | applying the same activation twice gives the same store as applying it once |
| `TicketLifecycle.ActivateRevivesAnyStatus` | apps/api/src/ticket/ticket.service.ts:176-179 | activate makes a Validated or Deleted ticket Active again |
| `TicketLifecycle.CreateActivateValidateScenario` | apps/api/src/ticket/ticket.service.ts:45-180 | after a create, validate fails (the ticket is Creating). After activation, validate succeeds once and then fails. The outbox has grown by exactly the create record and the validate record, in that order |
| `TicketLifecycle.TicketService.Create` | apps/api/src/ticket/ticket.service.ts:45-97 | the transaction commits exactly `CreateTicket`'s result or leaves both tables unchanged; keeps `Valid` |
| `TicketLifecycle.TicketService.Validate` | apps/api/src/ticket/ticket.service.ts:99-138 | the transaction commits exactly `ValidateTicket`'s result or leaves both tables unchanged; keeps `Valid` |
| `TicketLifecycle.TicketService.Delete` | apps/api/src/ticket/ticket.service.ts:140-167 | the transaction commits exactly `DeleteTicket`'s result or leaves both tables unchanged; keeps `Valid` |
| `TicketLifecycle.TicketService.Activate` | apps/api/src/ticket/ticket.service.ts:169-180 | the tables after the update are `ActivateTicket` of the tables before; keeps `Valid` |
| `TicketLifecycle.TicketService.SetError` | apps/api/src/ticket/ticket.service.ts:182-184 | the tables after the update are `SetTicketError` of the tables before; keeps `Valid` |
| `Translation.OverlayLastWins` | libs/translation/src/translation.service.ts:42-48 | the reduce writes exactly the attributes that some translation in the requested locale and entity class targets. Each gets the text of the last such translation in list order |
| `Translation.NonMatchingIgnored` | libs/translation/src/translation.service.ts:43 | a translation of another locale or entity class, wherever it stands in the list, does not change the overlay |
| `Translation.MapEntity` | libs/translation/src/translation.service.ts:37-51 | the returned entity is `Localized` of the input: its attributes overlaid with the reduce of the filtered translations |
| `Translation.NoTranslationsUnchanged` | libs/translation/src/translation.service.ts:38-40 | an entity with no translations is returned unchanged |
| `Translation.LocalizedAttribute` | libs/translation/src/translation.service.ts:42-50 | no attribute is removed. An attribute no matching translation targets keeps its value. A targeted attribute takes the text of the last matching translation. Class and translations are unchanged |
| `Translation.LocalizedIdempotent` | libs/translation/src/translation.service.ts:42-50 | localizing twice into the same locale equals localizing once |
| `Translation.EnglishEventExample` | apps/web/test/e2e/translation/translation.e2e-spec.ts:80-142 | an event with English and Portuguese translations shows the English name and descriptions under en_US |
| `Translation.PortugueseEventExample` | apps/web/test/e2e/translation/translation.e2e-spec.ts:168-230 | the same event shows the Portuguese name and descriptions under pt_BR |
| `Events.FindOneBy` | apps/admin/src/event/event.repository.ts:58-68 | finds nothing iff no event has that name and provider; otherwise returns the first such event in table order |
| `Events.AfterCreateOrInsert` | apps/admin/src/event/event.repository.ts:39-56 | an existing event with that name and provider is returned with the table unchanged, ignoring the description and image. Otherwise exactly one event with that name and provider is appended under the next id. It stores description and image only when they are non-empty |
| `Events.CreateOrInsertOnlyAppends` | apps/admin/src/event/event.repository.ts:45-55 | the old table is a prefix of the new one, which has at most one more row: no event, of any name or provider, is modified or removed |
| `Events.CreateOrInsertTwice` | apps/admin/src/event/event.repository.ts:45-55 | a second call with the same name and provider, whatever its description and image, returns the first call's event and changes nothing; the two calls add at most one row |
| `Events.CreateOrInsertKeepsKeysUnique` | apps/admin/src/event/event.repository.ts:45-55 | if no two events shared a name and provider before, none do after |
| `Events.EventRepository.CreateOrInsert` | apps/admin/src/event/event.repository.ts:39-56 | returns and leaves exactly what `AfterCreateOrInsert` gives for the table before; a newly saved event's id differs from every id already in the table; keeps ids below the next id and distinct |

## Left out

- Concurrency: the pessimistic write lock of `validate` (ticket.service.ts:108). Two validations racing for the same row are not modelled; each operation is one atomic step.
- Query-runner plumbing: `connect`, `release`, query builders and relation loading. The guaranteed release reduces to "nothing is written on failure".
- `findAllPaginated`, `findByUuidAndProvider` and `findByUuid` are reads through the ORM with cursor pagination. The final `findByUuid` of `create` is modelled as returning the stored row.
- `userService`, `eventService` and `ticketTypeService` `findOrCreate` inside `create`, and `encryptTicketUserData`: their code is not part of this model. Their answers (ids, ciphertext, or an error) are inputs.
- Only the columns the core reads or writes are modelled. Other columns of the ticket (name, additional data, purchase id, hash, relations) and the request fields other than `imageUrl` are not, nor the `operationUuid` a message carries.
- The ticket entity's default status is not part of this model: a new ticket is stored as `Creating`. The provider security enum is not part of this model either: `Level1` stands for every level other than `Level2`.
- The outbox service, the producer that publishes records and marks them Sent, the consumer that calls `activate`/`setError`, and ticket transfers: their code is not part of this model. Only the records the service appends, with status Created, are modelled. The outbox `id` and `sentAt` columns are not modelled.
- `TicketLifecycle.ActivateTicket`: does not model a database error raised by the single update of `activate` or `setError`; such an update changes nothing when it fails.
- `saveTranslations` is a database upsert whose unique key is not visible.
- `mapEntity` on a null entity (the source throws) is not modelled, and its filter and reduce are one loop rather than two passes. The entity class name `entity.constructor.name` is the `typeName` field. Translated attributes are kept apart from the `translations` list.
- `EventRepository.getPaginatedQueryBuilder` (cursor pagination) is not modelled. Neither are the translations `findOneBy` joins in, or the columns other than name, provider, description and image that `save` fills.
- `findOneBy` uses `getOne` without an order; the model returns the first matching row in table order.

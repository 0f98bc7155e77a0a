/**
 * The admin application's idempotent find-or-create of events
 * (apps/admin/src/event/event.repository.ts): an event is identified by its
 * name together with its ticket provider.
 */
module Events {
  import opened Wrappers

  /** A row of the event table. */
  datatype Event = Event(id: nat, name: string, ticketProviderId: nat, description: Option<string>, imageUrl: Option<string>)

  /** The event table, and the id the store gives the next row it saves. */
  datatype Table = Table(events: seq<Event>, nextId: nat)

  predicate HasKey(e: Event, name: string, ticketProviderId: nat)
  {
    e.name == name && e.ticketProviderId == ticketProviderId
  }

  /** `findOneBy({ name, ticketProviderId })`: the first row, in table order, with that name and provider. */
  function FindOneBy(events: seq<Event>, name: string, ticketProviderId: nat): (r: Option<Event>)
    ensures r.None? <==> forall i :: 0 <= i < |events| ==> !HasKey(events[i], name, ticketProviderId)
    ensures r.Some? ==> exists i :: && 0 <= i < |events| && events[i] == r.value && HasKey(events[i], name, ticketProviderId)
                                    && forall j :: 0 <= j < i ==> !HasKey(events[j], name, ticketProviderId)
  {
    if events == [] then None
    else if HasKey(events[0], name, ticketProviderId) then Some(events[0])
    else
      assert forall i :: 0 < i < |events| ==> events[i] == events[1..][i - 1];
      FindOneBy(events[1..], name, ticketProviderId)
  }

  /** `description && …`: an optional text is stored only when it is given and non-empty. */
  function Stored(text: Option<string>): Option<string>
  {
    if text.Some? && text.value != "" then text else None
  }

  /**
   * `createOrInsert`: the existing event with this name and provider, and the
   * table unchanged; otherwise a new event with this name and provider, saved
   * under the next id, with the description and the image only when non-empty.
   */
  function AfterCreateOrInsert(t: Table, name: string, ticketProviderId: nat, description: Option<string>, imageUrl: Option<string>): (res: (Event, Table))
    ensures HasKey(res.0, name, ticketProviderId)
    ensures FindOneBy(t.events, name, ticketProviderId).Some? ==> res == (FindOneBy(t.events, name, ticketProviderId).value, t)
    ensures FindOneBy(t.events, name, ticketProviderId).None? ==>
              && res.1.events == t.events + [res.0]
              && res.0.id == t.nextId && res.1.nextId == t.nextId + 1
              && res.0.description == Stored(description) && res.0.imageUrl == Stored(imageUrl)
  {
    match FindOneBy(t.events, name, ticketProviderId)
    case Some(existing) => (existing, t)
    case None =>
      var created := Event(t.nextId, name, ticketProviderId, Stored(description), Stored(imageUrl));
      (created, Table(t.events + [created], t.nextId + 1))
  }

  /** No event is modified or removed: the old table is a prefix of the new one, which is at most one row longer. */
  lemma CreateOrInsertOnlyAppends(t: Table, name: string, ticketProviderId: nat, description: Option<string>, imageUrl: Option<string>)
    ensures var t' := AfterCreateOrInsert(t, name, ticketProviderId, description, imageUrl).1;
            t.events <= t'.events && |t'.events| <= |t.events| + 1
  {
  }

  /**
   * A second call with the same name and provider, whatever its description and
   * image, returns the event the first call returned and changes nothing: the two
   * calls add at most one row.
   */
  lemma {:induction false} CreateOrInsertTwice(t: Table, name: string, ticketProviderId: nat,
                                               description: Option<string>, imageUrl: Option<string>,
                                               description2: Option<string>, imageUrl2: Option<string>)
    ensures var (first, t1) := AfterCreateOrInsert(t, name, ticketProviderId, description, imageUrl);
            var (second, t2) := AfterCreateOrInsert(t1, name, ticketProviderId, description2, imageUrl2);
            second == first && t2 == t1 && |t2.events| <= |t.events| + 1
  {
    var (first, t1) := AfterCreateOrInsert(t, name, ticketProviderId, description, imageUrl);
    var found := FindOneBy(t.events, name, ticketProviderId);
    if found.None? {
      assert t1.events == t.events + [first];
      var again := FindOneBy(t1.events, name, ticketProviderId);
      assert HasKey(t1.events[|t.events|], name, ticketProviderId);
      assert again.Some?;
      var k :| && 0 <= k < |t1.events| && t1.events[k] == again.value && HasKey(t1.events[k], name, ticketProviderId)
               && forall j :: 0 <= j < k ==> !HasKey(t1.events[j], name, ticketProviderId);
      assert forall i :: 0 <= i < |t.events| ==> t1.events[i] == t.events[i];
      assert k == |t.events|;
    } else {
      assert t1 == t;
      var k :| && 0 <= k < |t.events| && t.events[k] == found.value && HasKey(t.events[k], name, ticketProviderId)
               && forall j :: 0 <= j < k ==> !HasKey(t.events[j], name, ticketProviderId);
    }
  }

  /** At most one event per name and provider. */
  ghost predicate KeysUnique(events: seq<Event>)
  {
    forall i, j :: 0 <= i < j < |events| ==> !(events[i].name == events[j].name && events[i].ticketProviderId == events[j].ticketProviderId)
  }

  /** `createOrInsert` never creates a second event for a name and provider. */
  lemma CreateOrInsertKeepsKeysUnique(t: Table, name: string, ticketProviderId: nat, description: Option<string>, imageUrl: Option<string>)
    requires KeysUnique(t.events)
    ensures KeysUnique(AfterCreateOrInsert(t, name, ticketProviderId, description, imageUrl).1.events)
  {
    var (e, t') := AfterCreateOrInsert(t, name, ticketProviderId, description, imageUrl);
    if FindOneBy(t.events, name, ticketProviderId).None? {
      forall i, j | 0 <= i < j < |t'.events|
        ensures !(t'.events[i].name == t'.events[j].name && t'.events[i].ticketProviderId == t'.events[j].ticketProviderId)
      {
        if j == |t.events| {
          assert !HasKey(t.events[i], name, ticketProviderId);
        } else {
          assert t'.events[i] == t.events[i] && t'.events[j] == t.events[j];
        }
      }
    }
  }

  /** The event table of the admin application. */
  class EventRepository {
    var events: seq<Event>
    var nextId: nat

    /** The store gives every row an id below `nextId`, and no two rows the same id. */
    ghost predicate Valid()
      reads this
    {
      && (forall i :: 0 <= i < |events| ==> events[i].id < nextId)
      && (forall i, j :: 0 <= i < j < |events| ==> events[i].id != events[j].id)
    }

    function Contents(): Table
      reads this
    {
      Table(events, nextId)
    }

    constructor ()
      ensures Valid() && events == [] && nextId == 0
    {
      events := [];
      nextId := 0;
    }

    /** `createOrInsert`: looks the event up, and saves a new row only when there is none. */
    method CreateOrInsert(name: string, ticketProviderId: nat, description: Option<string>, imageUrl: Option<string>) returns (e: Event)
      requires Valid()
      modifies this
      ensures Valid()
      ensures (e, Contents()) == AfterCreateOrInsert(old(Contents()), name, ticketProviderId, description, imageUrl)
      ensures old(FindOneBy(events, name, ticketProviderId)).None? ==>
                forall i :: 0 <= i < |old(events)| ==> old(events)[i].id != e.id
    {
      var existingEvent := FindOneBy(events, name, ticketProviderId);
      if existingEvent.None? {
        var storedDescription := if description.Some? && description.value != "" then description else None;
        var storedImageUrl := if imageUrl.Some? && imageUrl.value != "" then imageUrl else None;
        // save: the store assigns the next id
        e := Event(nextId, name, ticketProviderId, storedDescription, storedImageUrl);
        events := events + [e];
        nextId := nextId + 1;
        return;
      }
      e := existingEvent.value;
    }
  }
}

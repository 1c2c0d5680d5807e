/**
 * The contacts page: the other party of each contact row, the search results
 * (never the user, at most ten), contact requests, and starting a call by
 * creating it, ringing the callee on their user topic and opening the call page.
 * Database calls are given as their results.
 */
module Contacts {
  import opened Wrappers
  import opened Signaling
  import Notifications
  import opened Sequences

  datatype Profile = Profile(id: string, username: Option<string>, displayName: Option<string>)

  datatype ContactRow = ContactRow(id: string, ownerId: string, contactId: string, status: string)

  /** A row as seen by `user`: the contact when the user owns the row, the owner otherwise. */
  function OtherParty(row: ContactRow, user: Option<string>): string {
    if user.Some? && row.ownerId == user.value then row.contactId else row.ownerId
  }

  /** `myContactIds`: one id per row, collected into a set. */
  function MyContactIds(rows: seq<ContactRow>, user: Option<string>): (ids: set<string>)
    ensures forall i :: 0 <= i < |rows| ==> OtherParty(rows[i], user) in ids
    ensures forall id :: id in ids ==> exists i :: 0 <= i < |rows| && OtherParty(rows[i], user) == id
    ensures |ids| <= |rows|
  {
    if rows == [] then {}
    else
      var rest := MyContactIds(rows[1..], user);
      assert forall i :: 1 <= i < |rows| ==> rows[i] == rows[1..][i - 1];
      {OtherParty(rows[0], user)} + rest
  }

  /** `filter(p => p.id !== user?.id)`: drops the user's own profile and keeps the rest in order. */
  function ExcludeSelf(ps: seq<Profile>, user: Option<string>): (r: seq<Profile>)
    ensures |r| <= |ps|
    ensures forall p :: p in r <==> p in ps && (user.None? || p.id != user.value)
    ensures (forall i :: 0 <= i < |ps| ==> user.None? || ps[i].id != user.value) ==> r == ps
    ensures Subsequence(r, ps)
  {
    if ps == [] then []
    else
      var rest := ExcludeSelf(ps[1..], user);
      assert forall p :: p in ps <==> p == ps[0] || p in ps[1..];
      if user.Some? && ps[0].id == user.value then
        SubsequenceDropHead(rest, ps);
        rest
      else
        assert ([ps[0]] + rest)[1..] == rest;
        [ps[0]] + rest
  }

  /** `ExcludeSelf` keeps every other profile as often as it occurs, duplicates included. */
  lemma {:induction false} ExcludeSelfMultiplicity(ps: seq<Profile>, user: Option<string>)
    ensures forall p :: multiset(ExcludeSelf(ps, user))[p] ==
                          if user.Some? && p.id == user.value then 0 else multiset(ps)[p]
  {
    if ps != [] {
      ExcludeSelfMultiplicity(ps[1..], user);
      assert ps == [ps[0]] + ps[1..];
      var rest := ExcludeSelf(ps[1..], user);
      if !(user.Some? && ps[0].id == user.value) {
        assert multiset([ps[0]] + rest) == multiset{ps[0]} + multiset(rest);
      }
    }
  }

  /** The `.limit(n)` of the query: the first `n` matching rows. */
  function Limit(ps: seq<Profile>, n: nat): (r: seq<Profile>)
    ensures |r| == if |ps| <= n then |ps| else n
    ensures r == ps[..|r|]
    ensures |ps| <= n ==> r == ps
  {
    if |ps| <= n then ps else ps[..n]
  }

  const SearchLimit := 10

  /** The ring sent to the callee's topic: from the caller, naming the call the callee's listener opens. */
  function RingPayload(self: string, target: string, callId: string): (p: SignalPayload)
    ensures p.kind == Ring && p.from == self && p.to == Some(target)
    ensures p.callId == Some(callId) && p.data == None
    ensures Notifications.RingRoute(p) == if callId == "" then None else Some(Notifications.CallRoute(callId))
  {
    SignalPayload(Ring, self, Some(target), Some(callId), None)
  }

  datatype Notice = RequestSent | RequestFailed | CallCreationFailed

  class ContactsPage {
    const user: Option<string>
    const transport: Transport
    /** The search box. */
    var q: string
    var results: seq<Profile>
    var contacts: seq<ContactRow>
    /** `(owner_id, contact_id)` of every contact insert issued. */
    var contactInserts: seq<(string, string)>
    /** `created_by` of every call insert issued. */
    var callInserts: seq<string>
    /** `(call_id, user_id, role)` of every participant insert issued. */
    var participantInserts: seq<(string, string, string)>
    var navigations: seq<string>
    var notices: seq<Notice>

    ghost predicate Valid()
      reads this
    {
      && (forall i :: 0 <= i < |results| ==> user.None? || results[i].id != user.value)
      && |results| <= SearchLimit
    }

    constructor (user: Option<string>, transport: Transport)
      ensures Valid()
      ensures this.user == user && this.transport == transport
      ensures q == "" && results == [] && contacts == []
      ensures contactInserts == [] && callInserts == [] && participantInserts == [] && navigations == [] && notices == []
    {
      this.user := user;
      this.transport := transport;
      q := "";
      results, contacts := [], [];
      contactInserts, callInserts, participantInserts, navigations, notices := [], [], [], [], [];
    }

    /** The ids the "Add" button is withheld for. */
    function ContactIds(): set<string>
      reads this
    {
      MyContactIds(contacts, user)
    }

    /** "Add" is offered exactly for profiles that are no party of any loaded contact row. */
    predicate OffersAdd(p: Profile)
      reads this
      ensures OffersAdd(p) <==> forall i :: 0 <= i < |contacts| ==> OtherParty(contacts[i], user) != p.id
    {
      p.id !in ContactIds()
    }

    /** The load effect: with a user, the returned rows replace the list (none returned: empty). */
    method LoadContacts(data: Option<seq<ContactRow>>)
      requires Valid()
      modifies this`contacts
      ensures Valid()
      ensures user.None? ==> contacts == old(contacts)
      ensures user.Some? ==> contacts == data.GetOr([])
    {
      if user.None? {
        return;
      }
      contacts := data.GetOr([]);
    }

    /**
     * `search(term)`: an empty term clears the results without a query; a failed query
     * leaves them; otherwise the first ten matching profiles, minus the user's own.
     * `response` is the database's reply for the pattern: its rows in order, or an error.
     */
    method Search(term: string, response: Result<seq<Profile>, string>)
      requires Valid()
      modifies this`q, this`results
      ensures Valid()
      ensures q == term
      ensures term == "" ==> results == []
      ensures term != "" && response.Failure? ==> results == old(results)
      ensures term != "" && response.Success? ==> results == ExcludeSelf(Limit(response.value, SearchLimit), user)
    {
      q := term;
      if term == "" {
        results := [];
        return;
      }
      if response.Failure? {
        return;
      }
      var rows := Limit(response.value, SearchLimit);
      results := ExcludeSelf(rows, user);
      assert forall i :: 0 <= i < |results| ==> results[i] in results;
    }

    /** `requestContact(target)`: one insert; the notice says whether it was accepted. */
    method RequestContact(target: string, accepted: bool)
      requires Valid()
      modifies this`contactInserts, this`notices
      ensures Valid()
      ensures user.None? ==> contactInserts == old(contactInserts) && notices == old(notices)
      ensures user.Some? ==> contactInserts == old(contactInserts) + [(user.value, target)]
      ensures user.Some? ==> notices == old(notices) + [if accepted then RequestSent else RequestFailed]
    {
      if user.None? {
        return;
      }
      contactInserts := contactInserts + [(user.value, target)];
      notices := notices + [if accepted then RequestSent else RequestFailed];
    }

    /**
     * `startCall(target)`: one call insert; `created` is the id of the inserted row,
     * `None` when the insert failed or returned no row. On success: the caller's
     * participant insert (its result unchecked), one ring on the callee's topic, then
     * the call page.
     */
    method StartCall(target: string, created: Option<string>)
      requires Valid()
      modifies this`callInserts, this`participantInserts, this`navigations, this`notices, transport`outbox
      ensures Valid()
      ensures user.None? ==> callInserts == old(callInserts)
      ensures user.Some? ==> callInserts == old(callInserts) + [user.value]
      ensures user.None? ==> participantInserts == old(participantInserts) && navigations == old(navigations)
                             && notices == old(notices) && transport.outbox == old(transport.outbox)
      ensures user.Some? && created.None? ==>
                && participantInserts == old(participantInserts) && navigations == old(navigations)
                && transport.outbox == old(transport.outbox) && notices == old(notices) + [CallCreationFailed]
      ensures user.Some? && created.Some? ==>
                && participantInserts == old(participantInserts) + [(created.value, user.value, "caller")]
                && transport.outbox == old(transport.outbox) + [Wrap(CreateUserChannel(target), RingPayload(user.value, target, created.value))]
                && navigations == old(navigations) + [Notifications.CallRoute(created.value)]
                && notices == old(notices)
    {
      if user.None? {
        return;
      }
      callInserts := callInserts + [user.value];
      if created.None? {
        notices := notices + [CallCreationFailed];
        return;
      }
      var callId := created.value;
      participantInserts := participantInserts + [(callId, user.value, "caller")];
      transport.Send(Channel(UserTopic(target), NotifyEvent), RingPayload(user.value, target, callId));
      navigations := navigations + [Notifications.CallRoute(callId)];
    }
  }

  /**
   * A ring that a successful `StartCall` sends reaches the callee's listener, and its
   * Accept action opens the very page the caller navigated to.
   */
  lemma RingOpensCallersPage(self: string, target: string, callId: string)
    requires callId != ""
    ensures var ch := Notifications.ListenChannel(Some(target)).value;
            var delivered := Deliver(ch, Wrap(CreateUserChannel(target), RingPayload(self, target, callId)));
            && delivered == Some(RingPayload(self, target, callId))
            && Notifications.RingRoute(delivered.value) == Some(Notifications.CallRoute(callId))
  {
    SendDeliverRoundTrip(CreateUserChannel(target), RingPayload(self, target, callId));
  }

  /** The search never lists the user, and never more than ten profiles. */
  lemma {:induction false} SearchResultsBounded(rows: seq<Profile>, user: Option<string>)
    ensures |ExcludeSelf(Limit(rows, SearchLimit), user)| <= SearchLimit
    ensures user.Some? ==> forall p :: p in ExcludeSelf(Limit(rows, SearchLimit), user) ==> p.id != user.value
  {
  }
}

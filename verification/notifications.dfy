/**
 * The notifications view (app.js `loadNotifications`): the newest twenty
 * notifications shown newest first, and one batched update that marks every
 * unread one as read.
 */
module Notifications {
  import opened Wrappers

  /** One `notifications/{uid}/{id}` record; a missing `read` flag is stored as false. */
  datatype Notification = Notification(id: string, kind: string, fromUsername: string, timestamp: int, read: bool)

  /** The `notifications/{uid}/{id}/read` path a batched update writes. */
  datatype FlagPath = FlagPath(uid: string, id: string)

  /** How many notifications one opening of the view fetches. */
  const FetchLimit: nat := 20

  /** Ascending by timestamp: the order the store returns a query ordered on that field. */
  predicate OrderedByTimestamp(s: seq<Notification>) {
    forall i, j :: 0 <= i < j < |s| ==> s[i].timestamp <= s[j].timestamp
  }

  /** The store's `limitToLast(n)`: the last `n` entries of the ordered collection, in order. */
  function LastN(ordered: seq<Notification>, n: nat): (r: seq<Notification>)
    ensures |r| == if |ordered| <= n then |ordered| else n
    ensures r == ordered[|ordered| - |r|..]
  {
    if |ordered| <= n then ordered else ordered[|ordered| - n..]
  }

  /** `Array.prototype.reverse`. */
  function Reversed(s: seq<Notification>): (r: seq<Notification>)
    ensures |r| == |s|
    ensures forall i :: 0 <= i < |s| ==> r[i] == s[|s| - 1 - i]
  {
    if s == [] then [] else Reversed(s[1..]) + [s[0]]
  }

  /** The list as displayed: the fetched tail of the ordered collection, reversed. */
  function DisplayList(ordered: seq<Notification>): (r: seq<Notification>)
    ensures |r| <= FetchLimit
    ensures |r| == if |ordered| <= FetchLimit then |ordered| else FetchLimit
    ensures forall i :: 0 <= i < |r| ==> r[i] == ordered[|ordered| - 1 - i]
  {
    Reversed(LastN(ordered, FetchLimit))
  }

  /**
   * Over a collection in timestamp order, the display is newest first, and no
   * notification left out is newer than one shown.
   */
  lemma DisplayNewestFirst(ordered: seq<Notification>)
    requires OrderedByTimestamp(ordered)
    ensures var r := DisplayList(ordered);
      && (forall i, j :: 0 <= i < j < |r| ==> r[i].timestamp >= r[j].timestamp)
      && (forall i, j :: 0 <= i < |ordered| - |r| && 0 <= j < |r| ==> ordered[i].timestamp <= r[j].timestamp)
  {
    var r := DisplayList(ordered);
    forall i, j | 0 <= i < j < |r|
      ensures r[i].timestamp >= r[j].timestamp
    {
      assert r[i] == ordered[|ordered| - 1 - i] && r[j] == ordered[|ordered| - 1 - j];
    }
    forall i, j | 0 <= i < |ordered| - |r| && 0 <= j < |r|
      ensures ordered[i].timestamp <= r[j].timestamp
    {
      assert r[j] == ordered[|ordered| - 1 - j];
    }
  }

  /** The batched update: `read = true` at the path of every unread notification shown, nothing else. */
  function ReadUpdates(uid: string, shown: seq<Notification>): (m: map<FlagPath, bool>)
    ensures forall p :: p in m ==> m[p]
    ensures forall p :: p in m <==> p.uid == uid && exists k :: 0 <= k < |shown| && shown[k].id == p.id && !shown[k].read
  {
    if shown == [] then map[]
    else
      var rest := ReadUpdates(uid, shown[1..]);
      assert forall k :: 0 < k < |shown| ==> shown[k] == shown[1..][k - 1];
      if shown[0].read then rest else rest[FlagPath(uid, shown[0].id) := true]
  }

  /** What one opening of the view produces: the list shown and the write it issues. */
  datatype View = View(shown: seq<Notification>, update: Action<map<FlagPath, bool>>)

  /** `loadNotifications` for user `uid`, given the user's collection in store order. */
  function LoadNotifications(uid: string, ordered: seq<Notification>): (v: View)
    ensures |v.shown| <= FetchLimit && |v.shown| <= |ordered|
    ensures forall i :: 0 <= i < |v.shown| ==> v.shown[i] == ordered[|ordered| - 1 - i]
    ensures v.update.NoWrite? <==> forall k :: 0 <= k < |v.shown| ==> v.shown[k].read
    ensures v.update.Write? ==> |v.update.written| > 0 && forall p :: p in v.update.written ==> v.update.written[p]
    ensures v.shown == DisplayList(ordered)
    ensures v.update.Write? ==> v.update.written == ReadUpdates(uid, v.shown)
  {
    var shown := DisplayList(ordered);
    var updates := ReadUpdates(uid, shown);
    if |updates| == 0 then
      assert forall k :: 0 <= k < |shown| ==> FlagPath(uid, shown[k].id) !in updates;
      View(shown, NoWrite)
    else
      View(shown, Write(updates))
  }

  /** A multi-path update applied to the store: listed paths of existing notifications take the new flag. */
  function ApplyUpdate(store: map<FlagPath, Notification>, updates: map<FlagPath, bool>): (r: map<FlagPath, Notification>)
    ensures r.Keys == store.Keys
    ensures forall p :: p in r ==> r[p] == store[p].(read := if p in updates then updates[p] else store[p].read)
  {
    map p | p in store :: store[p].(read := if p in updates then updates[p] else store[p].read)
  }

  /** The store after one opening of the view, given what it fetched. */
  function AfterOpen(uid: string, ordered: seq<Notification>, store: map<FlagPath, Notification>): map<FlagPath, Notification> {
    match LoadNotifications(uid, ordered).update
    case NoWrite => store
    case Write(updates) => ApplyUpdate(store, updates)
  }

  /**
   * One opening never turns a read flag back to false, changes nothing but read flags,
   * and leaves every notification it showed marked read.
   */
  lemma OpenMarksShownRead(uid: string, ordered: seq<Notification>, store: map<FlagPath, Notification>)
    ensures var after, shown := AfterOpen(uid, ordered, store), DisplayList(ordered);
      && after.Keys == store.Keys
      && (forall p :: p in store ==> after[p] == store[p].(read := after[p].read))
      && (forall p :: p in store && store[p].read ==> after[p].read)
      && (forall k :: 0 <= k < |shown| && FlagPath(uid, shown[k].id) in store ==>
            after[FlagPath(uid, shown[k].id)].read || shown[k].read)
  {
    var shown := DisplayList(ordered);
    var updates := ReadUpdates(uid, shown);
    forall k | 0 <= k < |shown| && !shown[k].read
      ensures FlagPath(uid, shown[k].id) in updates
    {
    }
  }

  /** The store after the view is opened once per fetch of `fetches`, in order. */
  function AfterOpens(uid: string, fetches: seq<seq<Notification>>, store: map<FlagPath, Notification>): map<FlagPath, Notification>
    decreases |fetches|
  {
    if fetches == [] then store else AfterOpens(uid, fetches[1..], AfterOpen(uid, fetches[0], store))
  }

  /** Across any number of openings, a notification once read stays read and keeps its other fields. */
  lemma {:induction false} ReadIsMonotone(uid: string, fetches: seq<seq<Notification>>, store: map<FlagPath, Notification>)
    ensures var after := AfterOpens(uid, fetches, store);
      && after.Keys == store.Keys
      && (forall p :: p in store ==> after[p] == store[p].(read := after[p].read))
      && (forall p :: p in store && store[p].read ==> after[p].read)
    decreases |fetches|
  {
    if fetches != [] {
      var next := AfterOpen(uid, fetches[0], store);
      OpenMarksShownRead(uid, fetches[0], store);
      ReadIsMonotone(uid, fetches[1..], next);
    }
  }
}

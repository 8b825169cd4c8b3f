/**
 * The participants table of the component and the reducers that update it:
 * merging announced publishers, removing a participant, and attaching a
 * remote stream. Keys are the decimal text of the gateway's numeric ids.
 */
module Membership {
  import opened Wrappers
  import opened Ids
  import opened Protocol

  /**
   * One row of the table. None stands for a field the JavaScript object does
   * not have: an entry created by spreading an absent row has only a stream.
   */
  datatype Participant = Participant(id: Option<string>, display: Option<string>, stream: Option<MediaStream>)

  type Table = map<string, Participant>

  /** Every row that carries an id carries its own key and a display name, and only such rows do. */
  ghost predicate WellKeyed(m: Table) {
    forall k :: k in m ==> (m[k].id.Some? <==> m[k].display.Some?) && (m[k].id.Some? ==> m[k].id.value == k)
  }

  /** The list names key `k`. */
  predicate Listed(pubs: seq<Publisher>, k: string) {
    exists j :: 0 <= j < |pubs| && IdString(pubs[j].id) == k
  }

  lemma ListedSnoc(pubs: seq<Publisher>, k: string)
    requires pubs != []
    ensures Listed(pubs, k) <==> Listed(pubs[..|pubs| - 1], k) || IdString(pubs[|pubs| - 1].id) == k
  {
    var init := pubs[..|pubs| - 1];
    if Listed(pubs, k) && IdString(pubs[|pubs| - 1].id) != k {
      var j :| 0 <= j < |pubs| && IdString(pubs[j].id) == k;
      assert init[j] == pubs[j];
    }
    if Listed(init, k) {
      var j :| 0 <= j < |init| && IdString(init[j].id) == k;
      assert pubs[j] == init[j];
    }
  }

  /** The row a publisher announcement creates: id and display set, no stream yet. */
  function Entry(p: Publisher): Participant {
    Participant(Some(IdString(p.id)), Some(p.display), None)
  }

  /**
   * The `newParticipants` record built from a publishers list, each publisher
   * written under its key in list order, so a later repeat of an id wins.
   */
  function PublisherEntries(pubs: seq<Publisher>): Table {
    if pubs == [] then map[]
    else
      var p := pubs[|pubs| - 1];
      PublisherEntries(pubs[..|pubs| - 1])[IdString(p.id) := Entry(p)]
  }

  /** The record has a row for exactly the listed keys, each with its own key, a display and no stream. */
  lemma {:induction false} PublisherEntriesShape(pubs: seq<Publisher>)
    ensures forall k :: k in PublisherEntries(pubs) <==> Listed(pubs, k)
    ensures forall k :: k in PublisherEntries(pubs) ==>
      PublisherEntries(pubs)[k].id == Some(k) && PublisherEntries(pubs)[k].display.Some? && PublisherEntries(pubs)[k].stream == None
  {
    if pubs != [] {
      PublisherEntriesShape(pubs[..|pubs| - 1]);
      ListedSnocAll(pubs);
    }
  }

  lemma ListedSnocAll(pubs: seq<Publisher>)
    requires pubs != []
    ensures forall k :: Listed(pubs, k) <==> Listed(pubs[..|pubs| - 1], k) || IdString(pubs[|pubs| - 1].id) == k
  {
    forall k ensures Listed(pubs, k) <==> Listed(pubs[..|pubs| - 1], k) || IdString(pubs[|pubs| - 1].id) == k {
      ListedSnoc(pubs, k);
    }
  }

  /** For a key listed more than once, the row holds the display of its last listing. */
  lemma {:induction false} LastListingWins(pubs: seq<Publisher>, j: nat)
    requires j < |pubs|
    requires forall i :: j < i < |pubs| ==> pubs[i].id != pubs[j].id
    ensures IdString(pubs[j].id) in PublisherEntries(pubs)
    ensures PublisherEntries(pubs)[IdString(pubs[j].id)] == Entry(pubs[j])
  {
    var n := |pubs|;
    if j < n - 1 {
      var init := pubs[..n - 1];
      assert init[j] == pubs[j];
      forall i | j < i < |init| ensures init[i].id != init[j].id {
        assert init[i] == pubs[i];
      }
      LastListingWins(init, j);
      IdStringInjective(pubs[n - 1].id, pubs[j].id);
    }
  }

  /**
   * `prev => ({...prev, ...newParticipants})`: every listed key gets a fresh
   * row with no stream, overwriting any row it had; other rows stay as they were.
   */
  function Announce(prev: Table, pubs: seq<Publisher>): (r: Table)
    ensures forall k :: k in r <==> k in prev || Listed(pubs, k)
    ensures forall k :: Listed(pubs, k) ==> k in r && r[k].id == Some(k) && r[k].display.Some? && r[k].stream == None
    ensures forall k :: k in prev && !Listed(pubs, k) ==> r[k] == prev[k]
    ensures WellKeyed(prev) ==> WellKeyed(r)
  {
    PublisherEntriesShape(pubs);
    prev + PublisherEntries(pubs)
  }

  /** The display of an announced row is that of the key's last listing. */
  lemma AnnounceTakesLastListing(prev: Table, pubs: seq<Publisher>, j: nat)
    requires j < |pubs|
    requires forall i :: j < i < |pubs| ==> pubs[i].id != pubs[j].id
    ensures Announce(prev, pubs)[IdString(pubs[j].id)] == Entry(pubs[j])
  {
    LastListingWins(pubs, j);
  }

  /** Copy-then-delete: exactly the row under `k` disappears; an absent key changes nothing. */
  function Without(prev: Table, k: string): (r: Table)
    ensures r.Keys == prev.Keys - {k}
    ensures forall j :: j in r ==> r[j] == prev[j]
    ensures k !in prev ==> r == prev
    ensures WellKeyed(prev) ==> WellKeyed(r)
  {
    prev - {k}
  }

  /**
   * `{...prev, [k]: {...prev[k], stream}}`: the row under `k` gets the stream
   * and keeps its id and display; when there was no row, the new one has only
   * the stream. Other rows stay as they were.
   */
  function WithStream(prev: Table, k: string, s: MediaStream): (r: Table)
    ensures r.Keys == prev.Keys + {k}
    ensures r[k].stream == Some(s)
    ensures k in prev ==> r[k].id == prev[k].id && r[k].display == prev[k].display
    ensures k !in prev ==> r[k].id == None && r[k].display == None
    ensures forall j :: j in prev && j != k ==> r[j] == prev[j]
    ensures WellKeyed(prev) ==> WellKeyed(r)
  {
    var row := if k in prev then prev[k] else Participant(None, None, None);
    prev[k := row.(stream := Some(s))]
  }

  /** A change the component makes to the table, named by the event that causes it. */
  datatype Change =
    | Announced(pubs: seq<Publisher>)
    | Departed(id: nat)
    | StreamReady(id: nat, stream: MediaStream)
    | CleanedUp(id: nat)

  function Apply(m: Table, c: Change): Table {
    match c
    case Announced(pubs) => Announce(m, pubs)
    case Departed(id) => Without(m, IdString(id))
    case StreamReady(id, s) => WithStream(m, IdString(id), s)
    case CleanedUp(id) => Without(m, IdString(id))
  }

  /** The table after applying a history of changes in arrival order. */
  function Replay(m: Table, cs: seq<Change>): Table
    decreases |cs|
  {
    if cs == [] then m else Apply(Replay(m, cs[..|cs| - 1]), cs[|cs| - 1])
  }

  predicate Mentions(c: Change, k: string) {
    match c
    case Announced(pubs) => Listed(pubs, k)
    case Departed(id) => IdString(id) == k
    case StreamReady(id, _) => IdString(id) == k
    case CleanedUp(id) => IdString(id) == k
  }

  /**
   * Reference definition of presence: `k` is present after a history when the
   * last change that names it adds a row, or when no change names it and it
   * was present at the start.
   */
  predicate PresentAfter(m: Table, cs: seq<Change>, k: string)
    decreases |cs|
  {
    if cs == [] then k in m
    else
      var c := cs[|cs| - 1];
      if Mentions(c, k) then c.Announced? || c.StreamReady?
      else PresentAfter(m, cs[..|cs| - 1], k)
  }

  /** Membership is decided by the last announcement or departure of each id, whatever came before. */
  lemma {:induction false} ReplayPresence(m: Table, cs: seq<Change>, k: string)
    ensures k in Replay(m, cs) <==> PresentAfter(m, cs, k)
  {
    if cs != [] {
      ReplayPresence(m, cs[..|cs| - 1], k);
    }
  }

  /** Replaying keeps every row well keyed. */
  lemma {:induction false} ReplayWellKeyed(m: Table, cs: seq<Change>)
    requires WellKeyed(m)
    ensures WellKeyed(Replay(m, cs))
  {
    if cs != [] {
      ReplayWellKeyed(m, cs[..|cs| - 1]);
    }
  }
}

/**
 * The QST outgoing queue: a client polls for the messages waiting for it,
 * acknowledging with an ETag the last message it received, and may bound
 * the batch with `max` (app/controllers/outgoing_controller.rb).
 */
module Outgoing {
  import opened Common
  import opened Text
  import opened Seqs

  /** An `UnreadOutMessage` row: a message the client has not yet acknowledged. */
  datatype UnreadEntry = UnreadEntry(id: int, guid: string)

  /** The fields of an `OutMessage` row the poll reads. */
  datatype OutMessage = OutMessage(guid: string, timestamp: int, subject: Option<string>)

  /** Ids ascend along the queue, as `UnreadOutMessage.all(:order => :id)` lists them. */
  ghost predicate Ascending(unread: seq<UnreadEntry>) {
    forall i, j :: 0 <= i < j < |unread| ==> unread[i].id < unread[j].id
  }

  /** The first position whose guid is `etag`, or nil. */
  function Position(unread: seq<UnreadEntry>, etag: string): (r: Option<nat>)
    ensures r.None? <==> forall j :: 0 <= j < |unread| ==> unread[j].guid != etag
    ensures r.Some? ==> (r.value < |unread| && unread[r.value].guid == etag &&
      forall j :: 0 <= j < r.value ==> unread[j].guid != etag)
  {
    if unread == [] then None
    else if unread[0].guid == etag then Some(0)
    else
      match Position(unread[1..], etag)
      case None => None
      case Some(k) => Some(k + 1)
  }

  /**
   * Lines 11-23: the entries still to be delivered. Without an ETag all of
   * them; with one, those after its first occurrence, and none at all when
   * it occurs nowhere (the counter then runs to the end of the list).
   */
  function Remaining(unread: seq<UnreadEntry>, etag: Option<string>): seq<UnreadEntry> {
    match etag
    case None => unread
    case Some(g) =>
      match Position(unread, g)
      case Some(k) => unread[k + 1..]
      case None => []
  }

  /** Line 16: what `delete_all("id <= #{msg.id}")` leaves of the queue. */
  function DeleteUpTo(unread: seq<UnreadEntry>, id: int): (r: seq<UnreadEntry>)
    ensures forall e :: e in r <==> e in unread && e.id > id
  {
    var r := Filter(unread, (e: UnreadEntry) => e.id > id);
    assert forall e :: e in unread && e.id > id ==> e in r by {
      forall e | e in unread && e.id > id ensures e in r {
        var i :| 0 <= i < |unread| && unread[i] == e;
      }
    }
    r
  }

  /** The queue after the poll: trimmed up to the acknowledged entry, if the ETag names one. */
  function StoreAfter(unread: seq<UnreadEntry>, etag: Option<string>): seq<UnreadEntry> {
    match etag
    case None => unread
    case Some(g) =>
      match Position(unread, g)
      case Some(k) => DeleteUpTo(unread, unread[k].id)
      case None => unread
  }

  /**
   * The length Ruby's `list[0 ... n]` keeps: at most `n` elements, and for
   * a negative `n` all but the last `-n`.
   */
  function SliceEnd(len: nat, n: int): (e: nat)
    ensures e <= len
    ensures n >= 0 ==> e == if n < len then n else len
    ensures n < 0 ==> e + (if -n < len then -n else len) == len
  {
    if n >= 0 then (if n < len then n else len)
    else if len + n >= 0 then len + n
    else 0
  }

  /** Lines 26-28: `max` keeps a prefix of the remaining entries. */
  function Truncate(s: seq<UnreadEntry>, max: Option<string>): (r: seq<UnreadEntry>)
    ensures |r| <= |s| && r == s[..|r|]
    ensures max.None? ==> r == s
    ensures max.Some? && ToI(max.value) >= 0 ==> |r| == if ToI(max.value) < |s| then ToI(max.value) else |s|
  {
    match max
    case None => s
    case Some(m) => s[..SliceEnd(|s|, ToI(m))]
  }

  /** Line 31: the guids of the kept entries. */
  function Guids(s: seq<UnreadEntry>): (r: seq<string>)
    ensures |r| == |s| && forall i :: 0 <= i < |s| ==> r[i] == s[i].guid
  {
    seq(|s|, i requires 0 <= i < |s| => s[i].guid)
  }

  function Timestamp(m: OutMessage): int {
    m.timestamp
  }

  /** Line 33: the OutMessages of the kept guids, by ascending timestamp. */
  function Batch(outs: seq<OutMessage>, guids: seq<string>): seq<OutMessage> {
    SortBy(Filter(outs, (m: OutMessage) => m.guid in guids), Timestamp)
  }

  /** Lines 35-37: the ETag answered, the guid of the last message sent. */
  function ResponseEtag(batch: seq<OutMessage>): (r: Option<string>)
    ensures r.Some? <==> batch != []
    ensures r.Some? ==> r.value == batch[|batch| - 1].guid
  {
    if batch == [] then None else Some(batch[|batch| - 1].guid)
  }

  // ---------------------------------------------------------------------
  // Properties of a poll
  // ---------------------------------------------------------------------

  /** Without an ETag nothing is deleted and every entry, in id order, is a candidate. */
  lemma NoEtagKeepsAll(unread: seq<UnreadEntry>)
    ensures StoreAfter(unread, None) == unread && Remaining(unread, None) == unread
  {
  }

  /**
   * An ETag naming the k-th entry deletes that entry and every earlier one,
   * and the queue left behind is exactly the entries still to be delivered.
   */
  lemma {:induction false} EtagTrimsQueue(unread: seq<UnreadEntry>, g: string, k: nat)
    requires Ascending(unread)
    requires Position(unread, g) == Some(k)
    ensures StoreAfter(unread, Some(g)) == unread[k + 1..] == Remaining(unread, Some(g))
    ensures forall e :: e in unread && e !in StoreAfter(unread, Some(g)) ==> e.id <= unread[k].id
  {
    FilterAbove(unread, unread[k].id, k);
  }

  /** On an ascending queue, keeping the ids above that of position k keeps what follows k. */
  lemma {:induction false} FilterAbove(unread: seq<UnreadEntry>, id: int, k: nat)
    requires Ascending(unread) && k < |unread| && unread[k].id == id
    ensures Filter(unread, (e: UnreadEntry) => e.id > id) == unread[k + 1..]
    decreases |unread|
  {
    if k > 0 {
      assert unread[0].id < id;
      assert Ascending(unread[1..]) by {
        forall i, j | 0 <= i < j < |unread[1..]| ensures unread[1..][i].id < unread[1..][j].id {
          assert unread[1..][i] == unread[i + 1] && unread[1..][j] == unread[j + 1];
        }
      }
      FilterAbove(unread[1..], id, k - 1);
      assert unread[1..][k..] == unread[k + 1..];
    } else {
      AllAbove(unread[1..], id);
    }
  }

  /** Every id after the first exceeds it, so the filter keeps the whole tail. */
  lemma {:induction false} AllAbove(tail: seq<UnreadEntry>, id: int)
    requires forall i :: 0 <= i < |tail| ==> tail[i].id > id
    ensures Filter(tail, (e: UnreadEntry) => e.id > id) == tail
    decreases |tail|
  {
    if tail != [] {
      AllAbove(tail[1..], id);
      assert tail == [tail[0]] + tail[1..];
    }
  }

  /** An ETag that names no entry leaves the queue alone and nothing to deliver. */
  lemma UnknownEtagDeliversNothing(unread: seq<UnreadEntry>, g: string)
    requires forall e :: e in unread ==> e.guid != g
    ensures StoreAfter(unread, Some(g)) == unread && Remaining(unread, Some(g)) == []
  {
    forall j | 0 <= j < |unread| ensures unread[j].guid != g {
      assert unread[j] in unread;
    }
  }

  /**
   * The batch holds exactly the OutMessages whose guid was kept, each as
   * often as in the table, ordered by timestamp.
   */
  lemma BatchContents(outs: seq<OutMessage>, guids: seq<string>)
    ensures var b := Batch(outs, guids);
      && (forall m :: m in b <==> m in outs && m.guid in guids)
      && SortedBy(b, Timestamp)
      && multiset(b) == multiset(Filter(outs, (m: OutMessage) => m.guid in guids))
  {
    var f := Filter(outs, (m: OutMessage) => m.guid in guids);
    var b := Batch(outs, guids);
    forall m ensures m in b <==> m in outs && m.guid in guids {
      assert m in b <==> m in multiset(f);
      if m in outs && m.guid in guids {
        var i :| 0 <= i < |outs| && outs[i] == m;
      }
    }
  }

  /** A poll with `max` 2 on three unacknowledged entries delivers the first two, oldest first. */
  lemma MaxExample()
    ensures Truncate([UnreadEntry(1, "a"), UnreadEntry(2, "b"), UnreadEntry(3, "c")], Some("2"))
      == [UnreadEntry(1, "a"), UnreadEntry(2, "b")]
  {
    assert LStrip("2") == "2";
    assert DigitPrefix("2") == "2";
    assert DigitsValue("2") == 2 by {
      assert "2"[..0] == "";
    }
  }

  // ---------------------------------------------------------------------
  // The controller over the queue
  // ---------------------------------------------------------------------

  /**
   * The poll endpoint for one application: `unread` is the
   * `UnreadOutMessage` queue, `outMessages` the `OutMessage` table.
   */
  class OutgoingController {
    var unread: seq<UnreadEntry>
    const outMessages: seq<OutMessage>

    ghost predicate Valid()
      reads this
    {
      Ascending(unread)
    }

    constructor (unread: seq<UnreadEntry>, outMessages: seq<OutMessage>)
      requires Ascending(unread)
      ensures Valid() && this.unread == unread && this.outMessages == outMessages
    {
      this.unread := unread;
      this.outMessages := outMessages;
    }

    /** `index`: the batch to deliver and the ETag header answered with it. */
    method Index(etag: Option<string>, max: Option<string>) returns (batch: seq<OutMessage>, responseEtag: Option<string>)
      requires Valid()
      modifies this`unread
      ensures Valid()
      ensures unread == StoreAfter(old(unread), etag)
      ensures batch == Batch(outMessages, Guids(Truncate(Remaining(old(unread), etag), max)))
      ensures responseEtag == ResponseEtag(batch)
    {
      var list := Acknowledge(etag);
      if max.Some? {
        list := list[..SliceEnd(|list|, ToI(max.value))];
      }
      batch, responseEtag := Respond(list);
    }

    /** Lines 11-23: without an ETag the whole queue is answered; with one, the entries after it. */
    method Acknowledge(etag: Option<string>) returns (list: seq<UnreadEntry>)
      requires Valid()
      modifies this`unread
      ensures Valid()
      ensures unread == StoreAfter(old(unread), etag)
      ensures list == Remaining(old(unread), etag)
    {
      list := unread;
      if etag.Some? {
        list := SkipAcknowledged(etag.value);
      }
    }

    /** Lines 31-37: the messages of the kept entries, oldest first, and the guid of the last one. */
    method Respond(list: seq<UnreadEntry>) returns (batch: seq<OutMessage>, responseEtag: Option<string>)
      ensures batch == Batch(outMessages, Guids(list))
      ensures responseEtag.Some? <==> batch != []
      ensures responseEtag.Some? ==> responseEtag.value == batch[|batch| - 1].guid
    {
      var guids := Guids(list);
      batch := Batch(outMessages, guids);
      if batch != [] {
        responseEtag := Some(batch[|batch| - 1].guid);
      } else {
        responseEtag := None;
      }
    }

    /**
     * Lines 12-22: counts entries up to and including the one whose guid
     * is the ETag, deletes the acknowledged entries and answers those after.
     */
    method SkipAcknowledged(g: string) returns (rest: seq<UnreadEntry>)
      requires Valid()
      modifies this`unread
      ensures Valid()
      ensures unread == StoreAfter(old(unread), Some(g))
      ensures rest == Remaining(old(unread), Some(g))
    {
      var list := unread;
      var count := 0;
      while count < |list|
        invariant 0 <= count <= |list|
        invariant forall j :: 0 <= j < count ==> list[j].guid != g
        invariant unread == list
      {
        var msg := list[count];
        count := count + 1;
        if msg.guid == g {
          assert Position(list, g) == Some(count - 1);
          EtagTrimsQueue(list, g, count - 1);
          unread := DeleteUpTo(unread, msg.id);
          return list[count..];
        }
      }
      rest := list[count..];
    }
  }
}

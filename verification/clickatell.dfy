/**
 * The Clickatell incoming callback: single messages are accepted at once,
 * concatenated (multipart) messages are stored fragment by fragment until
 * the last one arrives (app/controllers/clickatell/clickatell_controller.rb).
 */
module Clickatell {
  import opened Common
  import opened Text
  import opened Seqs
  import opened Messages
  import Routing

  /** The user data header of a concatenated SMS, as `ClickatellUdh.from_string` reads it. */
  datatype Udh = Udh(referenceNumber: int, partCount: int, partNumber: int)

  /** A `ClickatellMessagePart` row. */
  datatype MessagePart = MessagePart(
    originatingIsdn: string,
    referenceNumber: int,
    partCount: int,
    partNumber: int,
    timestamp: int,
    text: string)

  /**
   * The request parameters the controller reads. `timestamp` is what
   * `get_timestamp` yields: the parsed `timestamp` parameter, or the
   * current time when it does not parse.
   */
  datatype Request = Request(
    from: string,
    to: string,
    text: string,
    moMsgId: Option<string>,
    timestamp: int)

  /** A Clickatell channel of the application and its configuration hash. */
  datatype ChannelRecord = ChannelRecord(
    name: string,
    kind: string,
    configuration: map<string, string>)

  /** `@application.accept msg, @channel`: the message and the channel it came through. */
  datatype Accepted = Accepted(message: AtMessage, channel: ChannelRecord)

  /** The HTTP status `head :ok` answers with. */
  const StatusOk: int := 200

  // ---------------------------------------------------------------------
  // Authentication
  // ---------------------------------------------------------------------

  /** A configuration value, nil when the key is absent. */
  function Setting(c: ChannelRecord, key: string): Option<string> {
    Lookup(c.configuration, key)
  }

  /** The channel passes the test of lines 74-77 for these credentials. */
  predicate Matches(c: ChannelRecord, username: string, password: string, apiId: Option<string>) {
    c.kind == "clickatell" && c.name == username &&
    Setting(c, "incoming_password") == Some(password) && Setting(c, "api_id") == apiId
  }

  /**
   * `authenticate`: `application` holds the channels of the application
   * named in the URL, or nil when there is none; the answer is the first
   * channel that matches, or nil when authentication fails.
   */
  function Authenticate(application: Option<seq<ChannelRecord>>, username: string, password: string,
                        apiId: Option<string>): (r: Option<ChannelRecord>)
    ensures r.Some? <==>
      application.Some? && exists c :: c in application.value && Matches(c, username, password, apiId)
    ensures r.Some? ==>
      exists k :: 0 <= k < |application.value| && application.value[k] == r.value &&
        Matches(r.value, username, password, apiId) &&
        forall j :: 0 <= j < k ==> !Matches(application.value[j], username, password, apiId)
  {
    match application
    case None => None
    case Some(channels) => FirstMatch(channels, username, password, apiId)
  }

  /** The first matching channel of `channels`. */
  function FirstMatch(channels: seq<ChannelRecord>, username: string, password: string,
                      apiId: Option<string>): (r: Option<ChannelRecord>)
    ensures r.Some? <==> exists c :: c in channels && Matches(c, username, password, apiId)
    ensures r.Some? ==>
      exists k :: 0 <= k < |channels| && channels[k] == r.value &&
        Matches(r.value, username, password, apiId) &&
        forall j :: 0 <= j < k ==> !Matches(channels[j], username, password, apiId)
  {
    if channels == [] then None
    else if Matches(channels[0], username, password, apiId) then Some(channels[0])
    else
      var r := FirstMatch(channels[1..], username, password, apiId);
      if r.Some? then
        var k :| 0 <= k < |channels[1..]| && channels[1..][k] == r.value &&
          Matches(r.value, username, password, apiId) &&
          forall j :: 0 <= j < k ==> !Matches(channels[1..][j], username, password, apiId);
        assert channels[k + 1] == r.value;
        r
      else
        assert forall c :: c in channels ==> c == channels[0] || c in channels[1..];
        r
  }

  // ---------------------------------------------------------------------
  // Messages and fragments
  // ---------------------------------------------------------------------

  /**
   * `create_message`: both addresses get the "sms://" scheme, the text
   * becomes the subject, Clickatell's message id the channel-relative id.
   */
  function CreateMessage(req: Request, text: string): (m: AtMessage)
    ensures m.from.Some? && Routing.Protocol(m.from) == "sms" && m.from.value[6..] == req.from
    ensures m.to.Some? && Routing.Protocol(m.to) == "sms" && m.to.value[6..] == req.to
    ensures m.subject == Some(text) && m.channelRelativeId == req.moMsgId
    ensures m.timestamp == Some(req.timestamp) && m.body.None?
  {
    Routing.ProtocolOfAddress("sms", req.from);
    Routing.ProtocolOfAddress("sms", req.to);
    assert "sms" + "://" + req.from == "sms://" + req.from;
    assert "sms" + "://" + req.to == "sms://" + req.to;
    AtMessage(Some("sms://" + req.from), Some("sms://" + req.to), Some(text), None,
              req.moMsgId, Some(req.timestamp), map[], None)
  }

  /** The fragment belongs to the concatenated message (sender, reference number). */
  predicate SameKey(p: MessagePart, from: string, ref: int) {
    p.originatingIsdn == from && p.referenceNumber == ref
  }

  /** `ClickatellMessagePart.all(:conditions => conditions)`: the stored fragments of the key. */
  function StoredFor(parts: seq<MessagePart>, from: string, ref: int): seq<MessagePart> {
    Filter(parts, (p: MessagePart) => SameKey(p, from, ref))
  }

  /** `delete_all conditions`: the fragments of every other key. */
  function Without(parts: seq<MessagePart>, from: string, ref: int): (r: seq<MessagePart>)
    ensures forall p :: p in r <==> p in parts && !SameKey(p, from, ref)
  {
    var r := Filter(parts, (p: MessagePart) => !SameKey(p, from, ref));
    assert forall p :: p in parts && !SameKey(p, from, ref) ==> p in r by {
      forall p | p in parts && !SameKey(p, from, ref) ensures p in r {
        var i :| 0 <= i < |parts| && parts[i] == p;
      }
    }
    r
  }

  function PartNumber(p: MessagePart): int {
    p.partNumber
  }

  /** The texts of the fragments, in order. */
  function Texts(ps: seq<MessagePart>): (r: seq<string>)
    ensures |r| == |ps| && forall i :: 0 <= i < |ps| ==> r[i] == ps[i].text
  {
    seq(|ps|, i requires 0 <= i < |ps| => ps[i].text)
  }

  /** Lines 32-33: the texts of the fragments sorted by part number, one after the other. */
  function Assemble(ps: seq<MessagePart>): (text: string)
  {
    Concat(Texts(SortBy(ps, PartNumber)))
  }

  /** What one request leaves behind: the fragment store and the message accepted, if any. */
  datatype Outcome = Outcome(parts: seq<MessagePart>, emitted: Option<AtMessage>)

  /** The fragment line 31 pushes: only its number and text are read. */
  function NewPart(req: Request, udh: Udh): MessagePart {
    MessagePart(req.from, udh.referenceNumber, udh.partCount, udh.partNumber, req.timestamp, req.text)
  }

  /**
   * `index_multipart_message` on the store `parts`. The set is complete
   * when the fragments stored for (sender, reference number) number one
   * less than the part count; then the message is built from all of them
   * and the new one, in part-number order, and the key's fragments are
   * deleted. Otherwise the new fragment is stored and nothing is accepted.
   */
  function Multipart(parts: seq<MessagePart>, req: Request, udh: Udh): (o: Outcome)
    ensures o.emitted.Some? <==> |StoredFor(parts, req.from, udh.referenceNumber)| == udh.partCount - 1
    ensures o.emitted.Some? ==>
      && o.emitted.value == CreateMessage(req, Assemble(StoredFor(parts, req.from, udh.referenceNumber) + [NewPart(req, udh)]))
      && forall p :: p in o.parts <==> p in parts && !SameKey(p, req.from, udh.referenceNumber)
    ensures o.emitted.None? ==> o.parts == parts + [NewPart(req, udh)]
  {
    var stored := StoredFor(parts, req.from, udh.referenceNumber);
    if |stored| == udh.partCount - 1 then
      Outcome(Without(parts, req.from, udh.referenceNumber), Some(CreateMessage(req, Assemble(stored + [NewPart(req, udh)]))))
    else
      Outcome(parts + [NewPart(req, udh)], None)
  }

  /** One request: without a UDH the text is accepted at once and the store is left alone. */
  function Receive(parts: seq<MessagePart>, req: Request, udh: Option<Udh>): (o: Outcome)
    ensures udh.None? ==> o == Outcome(parts, Some(CreateMessage(req, req.text)))
  {
    match udh
    case None => Outcome(parts, Some(CreateMessage(req, req.text)))
    case Some(u) => Multipart(parts, req, u)
  }

  // ---------------------------------------------------------------------
  // Properties of reassembly
  // ---------------------------------------------------------------------

  /**
   * The text does not depend on the order the fragments arrived in, as
   * long as their part numbers differ.
   */
  lemma AssembleIgnoresArrivalOrder(a: seq<MessagePart>, b: seq<MessagePart>)
    requires multiset(a) == multiset(b)
    requires DistinctKeys(a, PartNumber)
    ensures Assemble(a) == Assemble(b)
  {
    var sa := SortBy(a, PartNumber);
    var sb := SortBy(b, PartNumber);
    DistinctKeysPermutation(a, sa, PartNumber);
    SortedUnique(sa, sb, PartNumber);
  }

  /** Fragment 2/2 arriving before fragment 1/2 gives one message "f1f2" and leaves the store empty. */
  lemma OutOfOrderExample()
    ensures var r1 := Request("555", "777", "f2", None, 0);
      var r2 := Request("555", "777", "f1", Some("mo9"), 1);
      var o1 := Receive([], r1, Some(Udh(9, 2, 2)));
      var o2 := Receive(o1.parts, r2, Some(Udh(9, 2, 1)));
      && o1.emitted.None?
      && o2.emitted.Some? && o2.emitted.value.subject == Some("f1f2")
      && o2.parts == []
  {
    var r1 := Request("555", "777", "f2", None, 0);
    var r2 := Request("555", "777", "f1", Some("mo9"), 1);
    var p1 := NewPart(r1, Udh(9, 2, 2));
    assert StoredFor([], "555", 9) == [];
    assert Receive([], r1, Some(Udh(9, 2, 2))) == Outcome([p1], None);
    SecondFragmentCompletes(p1, r2);
  }

  /** The fragment 1/2 completes a store holding only fragment 2/2 of the same key. */
  lemma SecondFragmentCompletes(p1: MessagePart, r2: Request)
    requires p1 == MessagePart("555", 9, 2, 2, 0, "f2")
    requires r2 == Request("555", "777", "f1", Some("mo9"), 1)
    ensures var o2 := Receive([p1], r2, Some(Udh(9, 2, 1)));
      o2.emitted.Some? && o2.emitted.value.subject == Some("f1f2") && o2.parts == []
  {
    var p2 := NewPart(r2, Udh(9, 2, 1));
    assert StoredFor([p1], "555", 9) == [p1];
    assert Without([p1], "555", 9) == [] by {
      assert Filter([p1], (p: MessagePart) => !SameKey(p, "555", 9)) == [];
    }
    SortTwo(p1, p2);
    TwoTexts(p2, p1);
    JoinedF1F2();
  }

  lemma JoinedF1F2()
    ensures "f1" + "f2" == "f1f2"
  {
  }

  /** The joined text of two fragments is the first's text followed by the second's. */
  lemma TwoTexts(a: MessagePart, b: MessagePart)
    ensures Concat(Texts([a, b])) == a.text + b.text
  {
    assert Texts([a, b]) == [a.text, b.text];
    assert [a.text, b.text][1..][1..] == [];
    assert Concat([b.text]) == b.text + Concat([]);
  }

  /** A fragment with a smaller number goes before one stored earlier. */
  lemma SortTwo(p1: MessagePart, p2: MessagePart)
    requires p2.partNumber < p1.partNumber
    ensures SortBy([p1] + [p2], PartNumber) == [p2, p1]
  {
    assert [p1] + [p2] == [p1, p2] && [p1, p2][1..] == [p2];
    assert SortBy([p2], PartNumber) == [p2] by {
      assert [p2][1..] == [];
    }
    assert Insert(p1, [p2], PartNumber) == [p2, p1] by {
      assert [p2][1..] == [];
    }
  }

  /**
   * Completion counts fragments and does not look at their numbers: a
   * fragment 1/2 sent twice completes the set, and the message holds its
   * text twice.
   */
  lemma CompletionCountsFragments()
    ensures var r := Request("555", "777", "hi", None, 0);
      var o1 := Receive([], r, Some(Udh(4, 2, 1)));
      var o2 := Receive(o1.parts, r, Some(Udh(4, 2, 1)));
      o1.emitted.None? && o2.emitted.Some? && o2.emitted.value.subject == Some("hihi")
  {
    var r := Request("555", "777", "hi", None, 0);
    var p := NewPart(r, Udh(4, 2, 1));
    assert StoredFor([], "555", 4) == [];
    assert StoredFor([p], "555", 4) == [p];
    assert [p] + [p] == [p, p] && [p, p][1..] == [p];
    assert SortBy([p, p], PartNumber) == [p, p] by {
      assert SortBy([p], PartNumber) == [p];
    }
    TwoTexts(p, p);
    JoinedHiHi();
    assert Assemble([p] + [p]) == "hihi";
  }

  lemma JoinedHiHi()
    ensures "hi" + "hi" == "hihi"
  {
  }

  // ---------------------------------------------------------------------
  // The controller over the fragment store
  // ---------------------------------------------------------------------

  /**
   * The controller for one authenticated application and channel: `parts`
   * is the `ClickatellMessagePart` table and `accepted` what was handed to
   * `@application.accept`.
   */
  class ClickatellController {
    const channel: ChannelRecord
    var parts: seq<MessagePart>
    var accepted: seq<Accepted>

    constructor (channel: ChannelRecord, parts: seq<MessagePart>)
      ensures this.channel == channel && this.parts == parts && accepted == []
    {
      this.channel := channel;
      this.parts := parts;
      accepted := [];
    }

    /** `index`: a request with a UDH is one fragment, any other a whole message; the answer is always 200. */
    method Index(req: Request, udh: Option<Udh>) returns (status: int)
      modifies this`parts, this`accepted
      ensures status == StatusOk
      ensures var o := Receive(old(parts), req, udh);
        parts == o.parts &&
        accepted == old(accepted) + (if o.emitted.Some? then [Accepted(o.emitted.value, channel)] else [])
    {
      if udh.Some? {
        status := IndexMultipart(req, udh.value);
      } else {
        status := IndexSingle(req);
      }
    }

    /** `index_single_message`. */
    method IndexSingle(req: Request) returns (status: int)
      modifies this`accepted
      ensures status == StatusOk
      ensures accepted == old(accepted) + [Accepted(CreateMessage(req, req.text), channel)]
    {
      Accept(CreateMessage(req, req.text));
      status := StatusOk;
    }

    /** `index_multipart_message`. */
    method IndexMultipart(req: Request, udh: Udh) returns (status: int)
      modifies this`parts, this`accepted
      ensures status == StatusOk
      ensures var o := Multipart(old(parts), req, udh);
        parts == o.parts &&
        accepted == old(accepted) + (if o.emitted.Some? then [Accepted(o.emitted.value, channel)] else [])
    {
      var found := StoredFor(parts, req.from, udh.referenceNumber);
      if |found| == udh.partCount - 1 {
        found := found + [NewPart(req, udh)];
        found := SortBy(found, PartNumber);
        var text := Concat(Texts(found));
        Accept(CreateMessage(req, text));
        parts := Without(parts, req.from, udh.referenceNumber);
      } else {
        parts := parts + [NewPart(req, udh)];
      }
      status := StatusOk;
    }

    /** `@application.accept msg, @channel`. */
    method Accept(m: AtMessage)
      modifies this`accepted
      ensures accepted == old(accepted) + [Accepted(m, channel)]
    {
      accepted := accepted + [Accepted(m, channel)];
    }
  }
}

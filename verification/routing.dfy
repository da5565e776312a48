/**
 * Routing of application-originated (AO) messages to channels, and the
 * bookkeeping of which channel a sender was last heard on
 * (app/models/application.rb).
 */
module Routing {
  import opened Common
  import opened Text
  import opened Seqs
  import opened Messages

  /** Channel::Incoming, Channel::Outgoing and Channel::Bidirectional. */
  datatype Direction = Incoming | Outgoing | Bidirectional

  datatype Channel = Channel(
    id: int,
    name: string,
    protocol: string,
    direction: Direction,
    enabled: bool,
    priority: Option<int>)

  /** A channel can carry AO messages when it is outgoing or bidirectional. */
  predicate IsOutgoing(c: Channel) {
    c.direction == Outgoing || c.direction == Bidirectional
  }

  /** A channel without a priority ranks as 100; lower ranks are preferred. */
  function PriorityOf(c: Channel): int {
    c.priority.GetOr(100)
  }

  /** An affinity record: `address` was last heard through channel `channelId`. */
  datatype AddressSource = AddressSource(
    accountId: int,
    applicationId: int,
    address: Option<string>,
    channelId: int,
    updatedAt: int)

  /** What `route_ao` answers: nil for a duplicate, true once handled, false after a rescued error. */
  datatype RouteResult = Duplicate | Handled | Raised

  /** One call of the channel's own `route_ao`: which message was handed to which channel. */
  datatype Dispatch = Dispatch(channelId: int, message: AoMessage)

  // ---------------------------------------------------------------------
  // Addresses, configuration and the message fields routing reads
  // ---------------------------------------------------------------------

  /** The first position of "://" in `s`. */
  function SchemeEnd(s: string): (r: Option<nat>)
    ensures r.Some? ==> r.value + 3 <= |s| && s[r.value..r.value + 3] == "://"
    decreases |s|
  {
    if |s| < 3 then None
    else if s[..3] == "://" then Some(0)
    else
      match SchemeEnd(s[1..])
      case None => None
      case Some(i) =>
        assert s[i + 1..i + 4] == s[1..][i..i + 3];
        Some(i + 1)
  }

  /** `msg.to.nil? ? '' : msg.to.protocol`: the text before "://", or '' when there is none. */
  function Protocol(to: Option<string>): string {
    match to
    case None => ""
    case Some(a) =>
      match SchemeEnd(a)
      case None => ""
      case Some(i) => a[..i]
  }

  /** An address "scheme://rest" has the protocol `scheme` when the scheme holds no ':'. */
  lemma {:induction false} ProtocolOfAddress(scheme: string, rest: string)
    requires ':' !in scheme
    ensures Protocol(Some(scheme + "://" + rest)) == scheme
  {
    SchemeEndAfter(scheme, rest);
    assert (scheme + "://" + rest)[..|scheme|] == scheme;
  }

  lemma {:induction false} SchemeEndAfter(scheme: string, rest: string)
    requires ':' !in scheme
    ensures SchemeEnd(scheme + "://" + rest) == Some(|scheme|)
  {
    var s := scheme + "://" + rest;
    if scheme == [] {
      assert s[..3] == "://";
    } else {
      assert s[0] == scheme[0] && s[..3][0] != ':';
      assert s[1..] == scheme[1..] + "://" + rest;
      SchemeEndAfter(scheme[1..], rest);
    }
  }

  /** The application's `strategy` setting, which defaults to 'single_priority'. */
  function Strategy(setting: Option<string>): string {
    setting.GetOr("single_priority")
  }

  /** `configuration[:use_address_source] || true`: affinity is consulted whatever the setting. */
  function UseAddressSource(setting: Option<bool>): (r: bool)
    ensures r
  {
    setting.GetOr(false) || true
  }

  /** The `suggested_channel` attribute of a message, nil when absent. */
  function SuggestedChannel(m: AoMessage): Option<string> {
    if "suggested_channel" in m.customAttributes then Some(m.customAttributes["suggested_channel"]) else None
  }

  /** `msg.strategy || strategy`: the message's own strategy wins over the application's. */
  function FinalStrategy(m: AoMessage, setting: Option<string>): string {
    if "strategy" in m.customAttributes then m.customAttributes["strategy"] else Strategy(setting)
  }

  /** `duplicated?`: a new message whose GUID the application has already stored. */
  predicate IsDuplicate(msg: AoMessage, appId: int, store: seq<AoMessage>) {
    msg.id.None? && msg.guid.Some? &&
    exists m :: m in store && m.applicationId == Some(appId) && m.guid == msg.guid
  }

  /** A stored message, or one without a GUID, is never a duplicate. */
  lemma PersistedNeverDuplicate(msg: AoMessage, appId: int, store: seq<AoMessage>)
    requires msg.id.Some? || msg.guid.None?
    ensures !IsDuplicate(msg, appId, store)
  {
  }

  /** `fill_common_message_properties`: a new message gets the account, application and clock time it lacks. */
  function FillCommon(msg: AoMessage, accountId: int, appId: int, now: int): AoMessage {
    if msg.id.Some? then msg
    else msg.(accountId := Some(msg.accountId.GetOr(accountId)),
              applicationId := Some(msg.applicationId.GetOr(appId)),
              timestamp := Some(msg.timestamp.GetOr(now)))
  }

  /**
   * The message as the selector leaves it: filled, and, when it has a
   * protocol, with the attributes derived by the rules merged in (rules win).
   */
  function Prepare(msg: AoMessage, accountId: int, appId: int, now: int, rules: map<string, string>): AoMessage {
    var m := FillCommon(msg, accountId, appId, now);
    if Protocol(m.to) == "" then m else m.(customAttributes := m.customAttributes + rules)
  }

  // ---------------------------------------------------------------------
  // The channel selector (candidate_channels_for_ao)
  // ---------------------------------------------------------------------

  /** The filters of lines 159-165: enabled, outgoing, right protocol, and accepted by the channel. */
  predicate Eligible(c: Channel, protocol: string, m: AoMessage, canRoute: (Channel, AoMessage) -> bool) {
    c.enabled && IsOutgoing(c) && c.protocol == protocol && canRoute(c, m)
  }

  function EligibleChannels(channels: seq<Channel>, m: AoMessage, canRoute: (Channel, AoMessage) -> bool): seq<Channel> {
    var protocol := Protocol(m.to);
    Filter(channels, (c: Channel) => Eligible(c, protocol, m, canRoute))
  }

  /** The first candidate named like the suggested channel, if any. */
  function Suggested(eligible: seq<Channel>, name: Option<string>): (r: Option<Channel>)
    ensures r.Some? ==> r.value in eligible && Some(r.value.name) == name
    ensures r.None? ==> name.None? || forall c :: c in eligible ==> c.name != name.value
    ensures r.Some? ==>
      exists k :: 0 <= k < |eligible| && eligible[k] == r.value &&
        forall j :: 0 <= j < k ==> Some(eligible[j].name) != name
  {
    match name
    case None => None
    case Some(n) =>
      var named := Filter(eligible, (c: Channel) => c.name == n);
      if named == [] then None
      else
        FilterHeadFirst(eligible, (c: Channel) => c.name == n);
        Some(named[0])
  }

  /** Some channel of `channels` has this id. */
  predicate HasChannel(channels: seq<Channel>, channelId: int) {
    exists c :: c in channels && c.id == channelId
  }

  /** The row records `address` for the application. */
  predicate HeardFrom(s: AddressSource, appId: int, address: Option<string>) {
    s.applicationId == appId && s.address == address
  }

  /** The sort key of `:order => 'updated_at DESC'`. */
  function NewestFirst(s: AddressSource): int {
    -s.updatedAt
  }

  /** The AddressSource rows of (application, address), newest `updated_at` first. */
  function SourcesFor(sources: seq<AddressSource>, appId: int, address: Option<string>): seq<AddressSource> {
    SortBy(Filter(sources, (s: AddressSource) => HeardFrom(s, appId, address)), NewestFirst)
  }

  /**
   * The scan of `get_last_channel`: the first channel whose id is that of a
   * source, taking the sources in order; nil when no source names a channel.
   */
  function FirstMatching(ordered: seq<AddressSource>, channels: seq<Channel>): (r: Option<Channel>)
    ensures r.None? <==> forall k :: 0 <= k < |ordered| ==> !HasChannel(channels, ordered[k].channelId)
    ensures r.Some? ==> (r.value in channels &&
      exists k :: 0 <= k < |ordered| && ordered[k].channelId == r.value.id &&
        forall j :: 0 <= j < k ==> !HasChannel(channels, ordered[j].channelId))
  {
    if ordered == [] then None
    else
      var hits := Filter(channels, (c: Channel) => c.id == ordered[0].channelId);
      if hits != [] then
        assert HasChannel(channels, ordered[0].channelId) by { assert hits[0] in channels; }
        Some(hits[0])
      else
        assert !HasChannel(channels, ordered[0].channelId) by {
          forall c | c in channels ensures c.id != ordered[0].channelId {
            var i :| 0 <= i < |channels| && channels[i] == c;
          }
        }
        var r := FirstMatching(ordered[1..], channels);
        if r.Some? then
          var k :| 0 <= k < |ordered[1..]| && ordered[1..][k].channelId == r.value.id &&
            forall j :: 0 <= j < k ==> !HasChannel(channels, ordered[1..][j].channelId);
          assert ordered[k + 1].channelId == r.value.id;
          r
        else
          r
  }

  /** `get_last_channel(address, channels)`; its guard of line 331 always passes, since `UseAddressSource` is always true. */
  function LastChannel(appId: int, address: Option<string>, sources: seq<AddressSource>, channels: seq<Channel>): Option<Channel> {
    FirstMatching(SourcesFor(sources, appId, address), channels)
  }

  /** `candidate_channels_for_ao` on a prepared message. */
  function Candidates(m: AoMessage, appId: int, channels: seq<Channel>, sources: seq<AddressSource>,
                      canRoute: (Channel, AoMessage) -> bool): seq<Channel>
  {
    if Protocol(m.to) == "" then []
    else
      var eligible := EligibleChannels(channels, m, canRoute);
      match Suggested(eligible, SuggestedChannel(m))
      case Some(c) => [c]
      case None =>
        match LastChannel(appId, m.to, sources, eligible)
        case Some(c) => [c]
        case None => SortBy(eligible, PriorityOf)
  }

  /** Every candidate is enabled, outgoing, speaks the message's protocol and accepts the message. */
  lemma CandidatesAreEligible(m: AoMessage, appId: int, channels: seq<Channel>, sources: seq<AddressSource>,
                              canRoute: (Channel, AoMessage) -> bool)
    ensures forall c :: c in Candidates(m, appId, channels, sources, canRoute) ==>
      c in channels && c.enabled && IsOutgoing(c) && c.protocol == Protocol(m.to) && canRoute(c, m)
  {
    CandidatesFromEligible(m, appId, channels, sources, canRoute);
    EligibleMembers(channels, m, canRoute);
  }

  /** Every candidate is one of the eligible channels. */
  lemma CandidatesFromEligible(m: AoMessage, appId: int, channels: seq<Channel>, sources: seq<AddressSource>,
                               canRoute: (Channel, AoMessage) -> bool)
    ensures forall c :: c in Candidates(m, appId, channels, sources, canRoute) ==> c in EligibleChannels(channels, m, canRoute)
  {
    var eligible := EligibleChannels(channels, m, canRoute);
    if Protocol(m.to) != "" && Suggested(eligible, SuggestedChannel(m)).None? &&
       LastChannel(appId, m.to, sources, eligible).None? {
      var sorted := SortBy(eligible, PriorityOf);
      forall c | c in sorted ensures c in eligible {
        assert c in multiset(sorted);
      }
    }
  }

  /** The eligible channels are channels of the application that pass every filter of lines 159-164. */
  lemma EligibleMembers(channels: seq<Channel>, m: AoMessage, canRoute: (Channel, AoMessage) -> bool)
    ensures forall c :: c in EligibleChannels(channels, m, canRoute) ==>
      c in channels && Eligible(c, Protocol(m.to), m, canRoute)
  {
    var eligible := EligibleChannels(channels, m, canRoute);
    forall c | c in eligible
      ensures c in channels && Eligible(c, Protocol(m.to), m, canRoute)
    {
      var i :| 0 <= i < |eligible| && eligible[i] == c;
    }
  }

  /** There are no candidates exactly when the message has no protocol or no channel is eligible. */
  lemma CandidatesEmptyIff(m: AoMessage, appId: int, channels: seq<Channel>, sources: seq<AddressSource>,
                           canRoute: (Channel, AoMessage) -> bool)
    ensures Candidates(m, appId, channels, sources, canRoute) == [] <==>
      Protocol(m.to) == "" || forall c :: c in channels ==> !Eligible(c, Protocol(m.to), m, canRoute)
  {
    var protocol := Protocol(m.to);
    if protocol != "" {
      var eligible := EligibleChannels(channels, m, canRoute);
      if eligible != [] {
        var c := eligible[0];
        assert c in channels && Eligible(c, protocol, m, canRoute);
        assert |SortBy(eligible, PriorityOf)| == |eligible|;
      } else {
        forall c | c in channels ensures !Eligible(c, protocol, m, canRoute) {
          var i :| 0 <= i < |channels| && channels[i] == c;
        }
      }
    }
  }

  /**
   * The order of selection: a surviving suggested channel alone; otherwise
   * the channel the address was last heard on alone; otherwise every
   * eligible channel, by ascending priority (nil ranking as 100).
   */
  lemma CandidatesSelectionOrder(m: AoMessage, appId: int, channels: seq<Channel>, sources: seq<AddressSource>,
                                 canRoute: (Channel, AoMessage) -> bool)
    requires Protocol(m.to) != ""
    ensures var eligible := EligibleChannels(channels, m, canRoute);
      var r := Candidates(m, appId, channels, sources, canRoute);
      && (SuggestedChannel(m).Some? && (exists c :: c in eligible && c.name == SuggestedChannel(m).value) ==>
            |r| == 1 && r[0] in eligible && r[0].name == SuggestedChannel(m).value &&
            (exists k :: 0 <= k < |eligible| && eligible[k] == r[0] &&
               forall j :: 0 <= j < k ==> Some(eligible[j].name) != SuggestedChannel(m)))
      && (Suggested(eligible, SuggestedChannel(m)).None? && LastChannel(appId, m.to, sources, eligible).Some? ==>
            r == [LastChannel(appId, m.to, sources, eligible).value])
      && (Suggested(eligible, SuggestedChannel(m)).None? && LastChannel(appId, m.to, sources, eligible).None? ==>
            SortedBy(r, PriorityOf) && multiset(r) == multiset(eligible))
  {
  }

  /**
   * The channel found by `get_last_channel` is one of the channels it was
   * given, its id is that of an AddressSource row of (application, address),
   * and no newer such row names one of the channels.
   */
  lemma LastChannelIsNewestHeard(appId: int, address: Option<string>, sources: seq<AddressSource>, channels: seq<Channel>)
    requires LastChannel(appId, address, sources, channels).Some?
    ensures var c := LastChannel(appId, address, sources, channels).value;
      c in channels &&
      exists s :: s in sources && HeardFrom(s, appId, address) && s.channelId == c.id &&
        forall t :: t in sources && HeardFrom(t, appId, address) && t.updatedAt > s.updatedAt ==>
          !HasChannel(channels, t.channelId)
  {
    var c := LastChannel(appId, address, sources, channels).value;
    var mine := Filter(sources, (s: AddressSource) => HeardFrom(s, appId, address));
    var ordered := SourcesFor(sources, appId, address);
    assert multiset(ordered) == multiset(mine);
    var k :| 0 <= k < |ordered| && ordered[k].channelId == c.id &&
      forall j :: 0 <= j < k ==> !HasChannel(channels, ordered[j].channelId);
    var s := ordered[k];
    assert s in multiset(mine);
    assert s in sources && HeardFrom(s, appId, address);
    forall t | t in sources && HeardFrom(t, appId, address) && t.updatedAt > s.updatedAt
      ensures !HasChannel(channels, t.channelId)
    {
      var i :| 0 <= i < |sources| && sources[i] == t;
      assert t in mine;
      assert t in multiset(ordered);
      var j :| 0 <= j < |ordered| && ordered[j] == t;
      SortedBefore(ordered, NewestFirst, j, k);
    }
  }

  // ---------------------------------------------------------------------
  // The routing strategies
  // ---------------------------------------------------------------------

  /** No candidate ranks before `c`. */
  predicate AtMost(c: Channel, cs: seq<Channel>) {
    forall x :: x in cs ==> PriorityOf(c) <= PriorityOf(x)
  }

  /** The channels whose priority is at most that of every candidate. */
  function MinTier(cs: seq<Channel>): (tier: seq<Channel>)
    ensures forall c :: c in tier <==> c in cs && AtMost(c, cs)
    ensures cs != [] ==> tier != []
  {
    var tier := Filter(cs, (c: Channel) => AtMost(c, cs));
    if cs == [] then tier
    else
      MinimumExists(cs);
      tier
  }

  /** Some position holds a channel of least priority. */
  lemma {:induction false} MinimumExists(cs: seq<Channel>)
    requires cs != []
    ensures exists i :: 0 <= i < |cs| && AtMost(cs[i], cs)
  {
    var i := MinimumAt(cs);
    assert AtMost(cs[i], cs);
  }

  lemma {:induction false} MinimumAt(cs: seq<Channel>) returns (i: nat)
    requires cs != []
    ensures i < |cs| && forall x :: x in cs ==> PriorityOf(cs[i]) <= PriorityOf(x)
  {
    if |cs| == 1 {
      i := 0;
    } else {
      var j := MinimumAt(cs[1..]);
      if PriorityOf(cs[0]) <= PriorityOf(cs[1..][j]) {
        i := 0;
      } else {
        i := j + 1;
      }
      forall x | x in cs ensures PriorityOf(cs[i]) <= PriorityOf(x) {
        if x != cs[0] {
          assert x in cs[1..];
        }
      }
    }
  }

  /** With priorities 5, 5 and 10 the single-priority strategy picks from the two priority-5 channels. */
  lemma MinTierExample(a: Channel, b: Channel, c: Channel)
    requires a.priority == Some(5) && b.priority == Some(5) && c.priority == Some(10)
    ensures forall x :: x in MinTier([a, b, c]) <==> x == a || x == b
  {
    assert PriorityOf(c) == 10;
  }

  /** The position of the first candidate whose `route_ao` raises, or the number of candidates. */
  function FirstRaising(cs: seq<Channel>, raising: set<int>): (k: nat)
    ensures k <= |cs|
    ensures forall j :: 0 <= j < k ==> cs[j].id !in raising
    ensures k < |cs| ==> cs[k].id in raising
  {
    if cs == [] then 0
    else if cs[0].id in raising then 0
    else 1 + FirstRaising(cs[1..], raising)
  }

  /** The broadcast copy of `orig` numbered `serial`: new, pending, with a fresh GUID and `orig` as parent. */
  function CopyOf(orig: AoMessage, serial: nat): AoMessage {
    orig.(id := None, state := "pending", guid := Some(Generated(serial)), parentId := orig.id)
  }

  /** The copies handed to the channels of a broadcast, one per channel, in channel order. */
  function BroadcastCopies(orig: AoMessage, cs: seq<Channel>, serial: nat): seq<Dispatch> {
    seq(|cs|, i requires 0 <= i < |cs| => Dispatch(cs[i].id, CopyOf(orig, serial + i)))
  }

  /**
   * A broadcast hands every channel exactly one copy; the copies are new
   * pending records pointing at the original, and their GUIDs differ from
   * each other and from any GUID a submitter chose.
   */
  lemma BroadcastCopiesShape(orig: AoMessage, cs: seq<Channel>, serial: nat)
    ensures var ds := BroadcastCopies(orig, cs, serial);
      && |ds| == |cs|
      && (forall i :: 0 <= i < |ds| ==> ds[i].channelId == cs[i].id)
      && (forall i :: 0 <= i < |ds| ==>
            ds[i].message.id.None? && ds[i].message.state == "pending" &&
            ds[i].message.parentId == orig.id && ds[i].message.guid.Some? &&
            ds[i].message.guid.value.Generated? &&
            ds[i].message.to == orig.to && ds[i].message.subject == orig.subject)
      && (forall i, j :: 0 <= i < j < |ds| ==> ds[i].message.guid != ds[j].message.guid)
  {
  }

  // ---------------------------------------------------------------------
  // The affinity store (route_at)
  // ---------------------------------------------------------------------

  /** The key AddressSource rows are unique on. */
  function SourceKey(s: AddressSource): (int, Option<string>, int) {
    (s.applicationId, s.address, s.channelId)
  }

  ghost predicate UniqueSources(sources: seq<AddressSource>) {
    forall i, j :: 0 <= i < j < |sources| ==> SourceKey(sources[i]) != SourceKey(sources[j])
  }

  /** `find_by_application_id_and_address_and_channel_id`: the first row with that key. */
  function FindSource(sources: seq<AddressSource>, key: (int, Option<string>, int)): (r: Option<nat>)
    ensures r.Some? ==> r.value < |sources| && SourceKey(sources[r.value]) == key
    ensures r.None? ==> forall i :: 0 <= i < |sources| ==> SourceKey(sources[i]) != key
  {
    if sources == [] then None
    else if SourceKey(sources[0]) == key then Some(0)
    else
      match FindSource(sources[1..], key)
      case None => None
      case Some(i) => Some(i + 1)
  }

  /** Lines 116-121: create the row for (application, address, channel), or touch the existing one. */
  function RecordSource(sources: seq<AddressSource>, accountId: int, appId: int, address: Option<string>,
                        channelId: int, now: int): seq<AddressSource>
  {
    match FindSource(sources, (appId, address, channelId))
    case None => sources + [AddressSource(accountId, appId, address, channelId, now)]
    case Some(i) => sources[i := sources[i].(updatedAt := now)]
  }

  /**
   * Recording a source leaves exactly one row for its key, stamped `now`;
   * rows of other keys are kept as they were and no row is added for them.
   */
  lemma RecordSourceKeepsOne(sources: seq<AddressSource>, accountId: int, appId: int, address: Option<string>,
                             channelId: int, now: int)
    requires UniqueSources(sources)
    ensures var r := RecordSource(sources, accountId, appId, address, channelId, now);
      && UniqueSources(r)
      && (exists i :: 0 <= i < |r| && SourceKey(r[i]) == (appId, address, channelId) && r[i].updatedAt == now)
      && (forall s :: s in sources && SourceKey(s) != (appId, address, channelId) ==> s in r)
      && (forall s :: s in r && SourceKey(s) != (appId, address, channelId) ==> s in sources)
  {
    var key := (appId, address, channelId);
    var r := RecordSource(sources, accountId, appId, address, channelId, now);
    match FindSource(sources, key)
    case None =>
      assert r[|sources|].updatedAt == now;
      forall s | s in r && SourceKey(s) != key ensures s in sources {
        var i :| 0 <= i < |r| && r[i] == s;
        assert i < |sources|;
      }
    case Some(k) =>
      assert r[k].updatedAt == now;
      forall s | s in sources && SourceKey(s) != key ensures s in r {
        var i :| 0 <= i < |sources| && sources[i] == s;
        assert r[i] == s;
      }
      forall s | s in r && SourceKey(s) != key ensures s in sources {
        var i :| 0 <= i < |r| && r[i] == s;
        assert sources[i] == s;
      }
  }

  // ---------------------------------------------------------------------
  // The Application record and its operations
  // ---------------------------------------------------------------------

  /** A message store after `save!`: a new record is appended, a stored one is rewritten in place. */
  function ReplaceById(store: seq<AoMessage>, saved: AoMessage): (r: seq<AoMessage>)
    ensures |r| == |store|
    ensures forall i :: 0 <= i < |r| ==> r[i] == (if store[i].id == saved.id then saved else store[i])
  {
    seq(|store|, i requires 0 <= i < |store| => if store[i].id == saved.id then saved else store[i])
  }

  /** The message as `save!` leaves it: a new record receives the next id. */
  function Assigned(m: AoMessage, nextId: int): AoMessage {
    if m.id.None? then m.(id := Some(nextId)) else m
  }

  function StoredAfterSave(store: seq<AoMessage>, m: AoMessage, nextId: int): seq<AoMessage> {
    if m.id.None? then store + [Assigned(m, nextId)] else ReplaceById(store, m)
  }

  /**
   * How `route_ao` ends once there are candidates (lines 68-98): a single
   * candidate gets the message itself; with several, 'broadcast' marks the
   * original 'broadcasted', saves it and hands each channel a fresh copy,
   * while any other strategy hands the message itself to one channel of the
   * lowest priority tier. A channel whose `route_ao` raises ends the routing
   * with `Raised`, keeping what was done before it.
   */
  ghost predicate RoutedTo(m: AoMessage, cs: seq<Channel>, strategy: string, raising: set<int>,
                           result: RouteResult, out: AoMessage,
                           store0: seq<AoMessage>, store1: seq<AoMessage>, nextId0: int,
                           sent0: seq<Dispatch>, sent1: seq<Dispatch>, serial0: nat)
    requires cs != []
  {
    if |cs| == 1 then
      && out == m && store1 == store0
      && result == (if cs[0].id in raising then Raised else Handled)
      && sent1 == sent0 + (if cs[0].id in raising then [] else [Dispatch(cs[0].id, m)])
    else if strategy == "broadcast" then
      var k := FirstRaising(cs, raising);
      && out == Assigned(m.(state := "broadcasted"), nextId0)
      && store1 == StoredAfterSave(store0, m.(state := "broadcasted"), nextId0)
      && result == (if k == |cs| then Handled else Raised)
      && sent1 == sent0 + BroadcastCopies(out, cs[..k], serial0)
    else
      && out == m && store1 == store0
      && exists c :: c in MinTier(cs) &&
           result == (if c.id in raising then Raised else Handled) &&
           sent1 == sent0 + (if c.id in raising then [] else [Dispatch(c.id, m)])
  }

  class Application {
    const id: int
    const accountId: int
    /** `configuration[:strategy]` */
    const strategySetting: Option<string>
    /** The channels of the application's account. */
    const channels: seq<Channel>

    /** The AOMessage table. */
    var aoMessages: seq<AoMessage>
    /** The ATMessage table. */
    var atMessages: seq<AtMessage>
    /** The AddressSource table. */
    var addressSources: seq<AddressSource>
    /** Every call of a channel's `route_ao`, oldest first. */
    var dispatched: seq<Dispatch>
    /** The id the database gives the next record it inserts. */
    var nextId: int
    /** The serial of the next GUID `Guid.new` draws. */
    var nextSerial: nat

    ghost predicate Valid()
      reads this
    {
      && (forall m :: m in aoMessages ==> m.id.Some? && m.id.value < nextId)
      && UniqueSources(addressSources)
    }

    constructor (id: int, accountId: int, strategySetting: Option<string>, channels: seq<Channel>)
      ensures Valid()
      ensures this.id == id && this.accountId == accountId
      ensures this.strategySetting == strategySetting && this.channels == channels
      ensures aoMessages == [] && atMessages == [] && addressSources == [] && dispatched == []
    {
      this.id := id;
      this.accountId := accountId;
      this.strategySetting := strategySetting;
      this.channels := channels;
      aoMessages, atMessages, addressSources, dispatched := [], [], [], [];
      nextId, nextSerial := 1, 0;
    }

    /** `msg.save!` on the AOMessage table. */
    method Save(m: AoMessage) returns (saved: AoMessage)
      requires Valid()
      modifies this`aoMessages, this`nextId
      ensures Valid()
      ensures saved == Assigned(m, old(nextId))
      ensures aoMessages == StoredAfterSave(old(aoMessages), m, old(nextId))
      ensures nextId == if m.id.None? then old(nextId) + 1 else old(nextId)
    {
      if m.id.None? {
        saved := m.(id := Some(nextId));
        aoMessages := aoMessages + [saved];
        nextId := nextId + 1;
      } else {
        saved := m;
        aoMessages := ReplaceById(aoMessages, m);
      }
    }

    /** The search loop of `get_last_channel`, scanning the sources newest first. */
    method GetLastChannel(address: Option<string>, outgoing: seq<Channel>) returns (r: Option<Channel>)
      ensures r == LastChannel(id, address, addressSources, outgoing)
      ensures r.Some? ==> r.value in outgoing
    {
      var ass := SourcesFor(addressSources, id, address);
      if ass == [] {
        return None;
      }
      var i := 0;
      while i < |ass|
        invariant 0 <= i <= |ass|
        invariant FirstMatching(ass[i..], outgoing) == FirstMatching(ass, outgoing)
      {
        var candidate := Filter(outgoing, (c: Channel) => c.id == ass[i].channelId);
        if candidate != [] {
          return Some(candidate[0]);
        }
        assert ass[i..][1..] == ass[i + 1..];
        i := i + 1;
      }
      return None;
    }

    /** `candidate_channels_for_ao`: prepares the message and computes its candidate channels. */
    method CandidateChannelsForAo(msg: AoMessage, now: int, rules: map<string, string>,
                                  canRoute: (Channel, AoMessage) -> bool)
      returns (candidates: seq<Channel>, prepared: AoMessage)
      ensures prepared == Prepare(msg, accountId, id, now, rules)
      ensures candidates == Candidates(prepared, id, channels, addressSources, canRoute)
    {
      prepared := FillCommon(msg, accountId, id, now);
      var protocol := Protocol(prepared.to);
      if protocol == "" {
        return [], prepared;
      }
      prepared := prepared.(customAttributes := prepared.customAttributes + rules);
      var eligible := Filter(channels, (c: Channel) => c.enabled && IsOutgoing(c));
      eligible := Filter(eligible, (c: Channel) => c.protocol == protocol);
      eligible := Filter(eligible, (c: Channel) => canRoute(c, prepared));
      FilterThree(channels, protocol, prepared, canRoute);
      assert prepared == Prepare(msg, accountId, id, now, rules);
      assert eligible == EligibleChannels(channels, prepared, canRoute);
      var suggestion := SuggestedChannel(prepared);
      if suggestion.Some? {
        var named := Filter(eligible, (c: Channel) => c.name == suggestion.value);
        if named != [] {
          assert Suggested(eligible, suggestion) == Some(named[0]);
          return [named[0]], prepared;
        }
      }
      assert Suggested(eligible, suggestion).None?;
      var last := GetLastChannel(prepared.to, eligible);
      if last.Some? {
        return [last.value], prepared;
      }
      candidates := SortBy(eligible, PriorityOf);
    }

    /**
     * `route_ao`. The channels' own `route_ao` is recorded in `dispatched`;
     * the ids in `raising` are the channels whose `route_ao` raises, which
     * the rescue turns into `Raised`. `rules` is what the rules engine and
     * attribute inference derive, `canRoute` is `Channel#can_route_ao?`.
     */
    method RouteAo(msg: AoMessage, now: int, rules: map<string, string>,
                   canRoute: (Channel, AoMessage) -> bool, raising: set<int>)
      returns (result: RouteResult, out: AoMessage)
      requires Valid()
      modifies this
      ensures Valid()
      ensures atMessages == old(atMessages) && addressSources == old(addressSources)
      ensures out.tries == msg.tries
      ensures IsDuplicate(msg, id, old(aoMessages)) ==>
        result == Duplicate && out == msg && aoMessages == old(aoMessages) &&
        dispatched == old(dispatched) && nextId == old(nextId) && nextSerial == old(nextSerial)
      ensures !IsDuplicate(msg, id, old(aoMessages)) ==>
        var m := Prepare(msg, accountId, id, now, rules);
        var cs := Candidates(m, id, channels, addressSources, canRoute);
        && result != Duplicate
        && (cs == [] ==>
              && result == Handled && out == Assigned(m.(state := "failed"), old(nextId))
              && aoMessages == StoredAfterSave(old(aoMessages), m.(state := "failed"), old(nextId))
              && dispatched == old(dispatched))
        && (cs != [] ==>
              RoutedTo(m, cs, FinalStrategy(m, strategySetting), raising, result, out,
                       old(aoMessages), aoMessages, old(nextId), old(dispatched), dispatched, old(nextSerial)))
    {
      if IsDuplicate(msg, id, aoMessages) {
        return Duplicate, msg;
      }
      var m := FillCommon(msg, accountId, id, now);
      var protocol := Protocol(m.to);
      if protocol == "" {
        out := Save(m.(state := "failed"));
        return Handled, out;
      }
      var cs;
      cs, m := CandidateChannelsForAo(m, now, rules, canRoute);
      assert m == Prepare(msg, accountId, id, now, rules);
      if cs == [] {
        out := Save(m.(state := "failed"));
        return Handled, out;
      }
      result, out := RouteToCandidates(m, cs, raising);
    }

    /** Lines 68-98: the single candidate, a broadcast, or one channel of the lowest priority tier. */
    method RouteToCandidates(m: AoMessage, cs: seq<Channel>, raising: set<int>)
      returns (result: RouteResult, out: AoMessage)
      requires Valid() && cs != []
      modifies this`aoMessages, this`nextId, this`dispatched, this`nextSerial
      ensures Valid()
      ensures out.tries == m.tries
      ensures RoutedTo(m, cs, FinalStrategy(m, strategySetting), raising, result, out,
                       old(aoMessages), aoMessages, old(nextId), old(dispatched), dispatched, old(nextSerial))
    {
      if |cs| == 1 {
        result := Deliver(m, cs[0], raising);
        out := m;
      } else if FinalStrategy(m, strategySetting) == "broadcast" {
        out := Save(m.(state := "broadcasted"));
        var ok := Broadcast(out, cs, raising);
        result := if ok then Handled else Raised;
      } else {
        var tier := MinTier(cs);
        assert tier[0] in tier;
        var chosen :| chosen in tier;
        result := Deliver(m, chosen, raising);
        out := m;
      }
    }

    /** `channel.route_ao msg`: recorded as a dispatch, unless that channel raises. */
    method Deliver(m: AoMessage, c: Channel, raising: set<int>) returns (result: RouteResult)
      modifies this`dispatched
      ensures result == (if c.id in raising then Raised else Handled)
      ensures dispatched == old(dispatched) + (if c.id in raising then [] else [Dispatch(c.id, m)])
    {
      if c.id in raising {
        return Raised;
      }
      dispatched := dispatched + [Dispatch(c.id, m)];
      return Handled;
    }

    /** The loop of lines 83-90: one fresh copy per channel, stopping at the first channel that raises. */
    method Broadcast(orig: AoMessage, cs: seq<Channel>, raising: set<int>) returns (ok: bool)
      modifies this`dispatched, this`nextSerial
      ensures ok == (FirstRaising(cs, raising) == |cs|)
      ensures dispatched == old(dispatched) + BroadcastCopies(orig, cs[..FirstRaising(cs, raising)], old(nextSerial))
    {
      var i := 0;
      while i < |cs|
        invariant 0 <= i <= |cs|
        invariant forall j :: 0 <= j < i ==> cs[j].id !in raising
        invariant dispatched == old(dispatched) + BroadcastCopies(orig, cs[..i], old(nextSerial))
        invariant nextSerial == old(nextSerial) + i
      {
        var copy := orig.(id := None, state := "pending", guid := Some(Generated(nextSerial)), parentId := orig.id);
        nextSerial := nextSerial + 1;
        if cs[i].id in raising {
          FirstRaisingAt(cs, raising, i);
          return false;
        }
        assert BroadcastCopies(orig, cs[..i + 1], old(nextSerial)) ==
          BroadcastCopies(orig, cs[..i], old(nextSerial)) + [Dispatch(cs[i].id, copy)];
        dispatched := dispatched + [Dispatch(cs[i].id, copy)];
        i := i + 1;
      }
      FirstRaisingAt(cs, raising, |cs|);
      assert cs[..|cs|] == cs;
      return true;
    }

    /** `reroute_ao`: routes the message again with its retry count reset and its state pending; a stored message is never taken for a duplicate. */
    method RerouteAo(msg: AoMessage, now: int, rules: map<string, string>,
                     canRoute: (Channel, AoMessage) -> bool, raising: set<int>)
      returns (result: RouteResult, out: AoMessage)
      requires Valid()
      modifies this
      ensures Valid()
      ensures out.tries == 0
      ensures msg.id.Some? || msg.guid.None? ==> result != Duplicate
      ensures atMessages == old(atMessages) && addressSources == old(addressSources)
      ensures var reset := msg.(tries := 0, state := "pending");
        IsDuplicate(reset, id, old(aoMessages)) ==>
          result == Duplicate && out == reset && aoMessages == old(aoMessages) &&
          dispatched == old(dispatched) && nextId == old(nextId) && nextSerial == old(nextSerial)
      ensures var reset := msg.(tries := 0, state := "pending");
        !IsDuplicate(reset, id, old(aoMessages)) ==>
          var m := Prepare(reset, accountId, id, now, rules);
          var cs := Candidates(m, id, channels, addressSources, canRoute);
          && result != Duplicate
          && (cs == [] ==>
                && result == Handled && out == Assigned(m.(state := "failed"), old(nextId))
                && aoMessages == StoredAfterSave(old(aoMessages), m.(state := "failed"), old(nextId))
                && dispatched == old(dispatched))
          && (cs != [] ==>
                RoutedTo(m, cs, FinalStrategy(m, strategySetting), raising, result, out,
                         old(aoMessages), aoMessages, old(nextId), old(dispatched), dispatched, old(nextSerial)))
    {
      result, out := RouteAo(msg.(tries := 0, state := "pending"), now, rules, canRoute, raising);
    }

    /**
     * `route_at`: the message is stamped with the application and saved;
     * through a bidirectional channel its sender is recorded as heard there.
     * `via` is nil when the message did not come through a channel.
     */
    method RouteAt(msg: AtMessage, via: Option<Channel>, now: int) returns (saved: AtMessage)
      requires Valid()
      modifies this`atMessages, this`addressSources
      ensures Valid()
      ensures saved == msg.(applicationId := Some(id))
      ensures atMessages == old(atMessages) + [saved]
      ensures addressSources ==
        if via.Some? && via.value.direction == Bidirectional
        then RecordSource(old(addressSources), accountId, id, msg.from, via.value.id, now)
        else old(addressSources)
    {
      saved := msg.(applicationId := Some(id));
      if via.Some? && via.value.direction == Bidirectional {
        RecordSourceKeepsOne(addressSources, accountId, id, msg.from, via.value.id, now);
        var found := FindSource(addressSources, (id, msg.from, via.value.id));
        if found.None? {
          addressSources := addressSources + [AddressSource(accountId, id, msg.from, via.value.id, now)];
        } else {
          addressSources := addressSources[found.value := addressSources[found.value].(updatedAt := now)];
        }
      }
      atMessages := atMessages + [saved];
    }
  }

  /** The three successive filters of lines 159-165 select the eligible channels. */
  lemma FilterThree(channels: seq<Channel>, protocol: string, m: AoMessage, canRoute: (Channel, AoMessage) -> bool)
    ensures Filter(Filter(Filter(channels, (c: Channel) => c.enabled && IsOutgoing(c)), (c: Channel) => c.protocol == protocol), (c: Channel) => canRoute(c, m))
      == Filter(channels, (c: Channel) => Eligible(c, protocol, m, canRoute))
  {
    if channels != [] {
      FilterThree(channels[1..], protocol, m, canRoute);
    }
  }

  lemma {:induction false} FirstRaisingAt(cs: seq<Channel>, raising: set<int>, i: nat)
    requires i <= |cs|
    requires forall j :: 0 <= j < i ==> cs[j].id !in raising
    requires i < |cs| ==> cs[i].id in raising
    ensures FirstRaising(cs, raising) == i
  {
    if i > 0 {
      FirstRaisingAt(cs[1..], raising, i - 1);
    }
  }
}

# Nuntium routing core in Dafny

Nuntium is a gateway that moves messages between applications and channels. It routes AO (application-originated) messages to SMS, e-mail, XMPP and other channels. It hands AT (application-terminated) messages back to applications. This project models the core of that work and proves properties of the model:

- **Routing** (`app/models/application.rb`): `route_ao` and `candidate_channels_for_ao`.
  - Duplicate detection by GUID.
  - Protocol taken from the `to` address.
  - Channel eligibility filters.
  - The suggested channel, then the last channel the address was heard on, then every eligible channel by priority.
  - The `broadcast` strategy and the lowest-priority-tier choice.
  - The rescue of a channel that raises.
  - Also `reroute_ao`, `route_at`, which records address affinity, and `get_last_channel`.
- **Clickatell** (`clickatell_controller.rb`): the incoming callback.
  - Channel authentication by credentials and API id.
  - Single messages are accepted at once.
  - Concatenated messages are stored fragment by fragment and assembled in part order when the last one arrives.
- **Outgoing** (`outgoing_controller.rb`): the ETag-acknowledged poll for queued AO messages.
  - Acknowledging up to the ETag.
  - Capping the batch with `max`.
  - Answering with the last GUID as the new ETag.
- **Alerts** (`alert_trigger.rb`): `AlertTrigger#alert`.
  - Suppression for an hour.
  - One AO message per configured recipient.
  - Creating or re-arming the Alert row.
- **POP3** (`receive_pop3_message_job.rb`): turning a fetched e-mail into an AT message.
  - The `mailto://` addresses.
  - Quoted-text removal.
  - Reading the `References` header back into `reply_to` and `references_*` custom attributes.
- **SMPP** (`smpp_channel_handler.rb`) and **XMPP** (`xmpp_channel.rb`): configuration validation and the one-line channel description.

Pure logic is written as functions and lemmas. Objects whose state the source updates in place are classes whose methods are proved against those functions:

- the application with its stored messages and address sources;
- the Clickatell controller with its fragment store;
- the outgoing controller with its unread queue;
- the alert trigger;
- the SMPP handler with its error list.

The method loops are `while` loops with invariants: the Alert loop, the POP3 scan and reference loop, and the ETag search.

Where the documented behaviour and the code differ, the model follows the code:

- `alert_trigger.rb:15` uses `=`, not `==`. When a recipient has a channel, the first alert of the kind is re-armed and moved to that channel, rather than the alert of that channel. See `Alerts.AssignmentSelectsFirstAlert`.
- Address affinity is kept per (application, address, channel), as `application.rb:116` looks it up, not per (application, address).
- A broadcast saves the original as `broadcasted` before its copies are routed (`application.rb:77-78`). A channel that raises part-way leaves that save and the copies already handed over in place.

## Model

| member | source | states |
|---|---|---|
| Routing.ProtocolOfAddress | app/models/application.rb:42 | an address `scheme://rest` whose scheme holds no ':' has that scheme as its protocol |
| Routing.Protocol | app/models/application.rb:42 | definition: the protocol of the `to` address, the text before its first `://`, empty when there is none or no address |
| Routing.UseAddressSource | app/models/application.rb:224-226 | address affinity is used whatever the setting holds, nil included |
| Routing.PersistedNeverDuplicate | app/models/application.rb:317-320 | a message that is already stored, or that has no GUID, is never taken for a duplicate |
| Routing.IsDuplicate | app/models/application.rb:317-320 | definition of `duplicated?`: a new message with a GUID that a stored message of the application already carries |
| Routing.Prepare | app/models/application.rb:143-156 | definition: a new message gets the account, application and time it lacks; when it has a protocol, the rules' attributes are merged over its own |
| Routing.Suggested | app/models/application.rb:167-171 | the suggested channel is used only if it survived the filters and carries the suggested name, and it is the first surviving channel of that name; if none is found, no surviving channel has that name |
| Routing.FirstMatching | app/models/application.rb:336-340 | the first address source, newest first, whose channel is among the candidates; nil exactly when no source names one |
| Routing.LastChannel | app/models/application.rb:330-341 | definition of `get_last_channel`: the first of the application's sources for the address, newest first, that names one of the given channels |
| Routing.EligibleMembers | app/models/application.rb:159-165 | every eligible channel is one of the application's channels: enabled, outgoing, of the message's protocol and able to route it |
| Routing.FilterThree | app/models/application.rb:159-165 | the three successive filters keep exactly the eligible channels, in account order |
| Routing.CandidatesFromEligible | app/models/application.rb:167-179 | whichever branch selects them, every candidate is an eligible channel |
| Routing.Candidates | app/models/application.rb:143-180 | definition of `candidate_channels_for_ao` on a prepared message: nothing without a protocol; else the suggested channel, the last channel, or the eligible channels sorted by priority |
| Routing.CandidatesAreEligible | app/models/application.rb:143-180 | every candidate is an enabled outgoing channel of the application, of the message's protocol, that can route it |
| Routing.CandidatesEmptyIff | app/models/application.rb:148-165 | there are no candidates exactly when the `to` address has no protocol or no channel is eligible |
| Routing.CandidatesSelectionOrder | app/models/application.rb:167-179 | order of selection: the first surviving channel of the suggested name alone; else the channel last heard from alone; else all eligible channels, sorted by priority (nil as 100) and a permutation of them |
| Routing.LastChannelIsNewestHeard | app/models/application.rb:330-341 | the last channel is one of those given; an address-source row of (application, address) names it, and no newer such row names one of the given channels |
| Routing.MinTier | app/models/application.rb:91-97 | the lowest tier holds exactly the candidates whose priority is at most every other's, and is never empty |
| Routing.MinTierExample | app/models/application.rb:91-97 | of priorities 5, 5 and 10, both channels of priority 5 are candidates for the random choice |
| Routing.FirstRaising | app/models/application.rb:83-90 | the position of the first channel whose `route_ao` raises: no channel before it raises |
| Routing.FirstRaisingAt | app/models/application.rb:83-90 | a position before which no channel raises and at which one does is the first raising position |
| Routing.BroadcastCopies | app/models/application.rb:83-90 | definition: for each channel in turn, the copy handed to it |
| Routing.BroadcastCopiesShape | app/models/application.rb:83-90 | a broadcast gives each channel exactly one copy: a new pending record of the original's address and subject, pointing at the original, with its own fresh GUID |
| Routing.FindSource | app/models/application.rb:116 | the position of the address-source row of (application, address, channel), or nil exactly when there is none |
| Routing.RecordSource | app/models/application.rb:115-121 | definition: create the (application, address, channel) row stamped now, or touch the existing one |
| Routing.RecordSourceKeepsOne | app/models/application.rb:115-121 | recording keeps one row per (application, address, channel), stamps that row with the current time, and leaves every other row as it was |
| Routing.ReplaceById | app/models/application.rb:46 | `save!` of a stored message replaces the row with its id and no other |
| Routing.Application.Save | app/models/application.rb:46 | a new message gets the next id and is appended; a stored one replaces its row |
| Routing.Application.GetLastChannel | app/models/application.rb:330-341 | the result is the last-channel function of the stored address sources, and is one of the given channels |
| Routing.Application.CandidateChannelsForAo | app/models/application.rb:143-180 | the message is filled in and enriched by the rules; the candidates are the specified selection over the application's channels |
| Routing.Application.RouteAo | app/models/application.rb:35-103 | a duplicate changes nothing. Otherwise a message without candidates is saved as failed. Otherwise it is routed to the candidates as strategy and priorities say. AT messages and address sources never change |
| Routing.Application.RouteToCandidates | app/models/application.rb:68-98 | one candidate gets the message. A broadcast saves the original as `broadcasted` and hands out copies up to the first raising channel. Otherwise one channel of the lowest tier gets the message, and a raise gives `Raised` |
| Routing.RoutedTo | app/models/application.rb:68-98 | definition: the outcome, stored messages and dispatches allowed after routing to several candidates, one candidate, or by broadcast |
| Routing.Application.Deliver | app/models/application.rb:70 | the channel's `route_ao` is recorded unless it raises, and a raise is reported as `Raised` |
| Routing.Application.Broadcast | app/models/application.rb:83-90 | copies go to the channels in order up to the first that raises; the result is true exactly when none raises |
| Routing.Application.RerouteAo | app/models/application.rb:105-109 | the message is routed as `route_ao` routes it once its retry count is reset and its state is pending: the same duplicate, failure and routing outcomes. A stored message is never taken for a duplicate |
| Routing.Application.RouteAt | app/models/application.rb:111-125 | the message is stamped with the application and appended; through a bidirectional channel the sender is recorded as heard on it |
| Clickatell.Authenticate | app/controllers/clickatell/clickatell_controller.rb:69-88 | authentication succeeds exactly when the application exists and one of its Clickatell channels matches the user, password and API id; it yields the first such channel |
| Clickatell.FirstMatch | app/controllers/clickatell/clickatell_controller.rb:74-81 | the channel found matches, and none before it does; nil exactly when no channel matches |
| Clickatell.CreateMessage | app/controllers/clickatell/clickatell_controller.rb:55-63 | the message goes from `sms://` plus the sender to `sms://` plus the receiver, with the text as subject, the Clickatell message id as channel-relative id, the request's timestamp, and no body |
| Clickatell.Without | app/controllers/clickatell/clickatell_controller.rb:39 | deleting the fragments of the key keeps exactly the fragments of other keys |
| Clickatell.Texts | app/controllers/clickatell/clickatell_controller.rb:33 | the texts of the fragments, position by position |
| Clickatell.Assemble | app/controllers/clickatell/clickatell_controller.rb:31-33 | definition: the fragments sorted by part number, their texts joined |
| Clickatell.Multipart | app/controllers/clickatell/clickatell_controller.rb:23-53 | a message is emitted exactly when part-count minus one fragments of the key are stored. It then holds the fragments' texts in part order, and the key's fragments are deleted. Otherwise the fragment is stored |
| Clickatell.Receive | app/controllers/clickatell/clickatell_controller.rb:9-16 | a request without a UDH is accepted at once as one message and leaves the fragment store alone |
| Clickatell.AssembleIgnoresArrivalOrder | app/controllers/clickatell/clickatell_controller.rb:31-33 | fragments with distinct part numbers assemble to the same text whatever order they arrived in |
| Clickatell.OutOfOrderExample | app/controllers/clickatell/clickatell_controller.rb:23-39 | fragment 2/2 then fragment 1/2 give one message "f1f2" and leave the store empty |
| Clickatell.SecondFragmentCompletes | app/controllers/clickatell/clickatell_controller.rb:29-39 | fragment 1/2 arriving after fragment 2/2 emits "f1f2" and empties the store |
| Clickatell.SortTwo | app/controllers/clickatell/clickatell_controller.rb:32 | sorting puts a fragment with a smaller part number before one stored earlier |
| Clickatell.CompletionCountsFragments | app/controllers/clickatell/clickatell_controller.rb:25-33 | completion counts fragments without looking at their numbers: fragment 1/2 sent twice completes the message, with the text twice |
| Clickatell.ClickatellController.Index | app/controllers/clickatell/clickatell_controller.rb:9-16 | the answer is always 200; the fragment store and accepted messages follow `Receive` |
| Clickatell.ClickatellController.IndexSingle | app/controllers/clickatell/clickatell_controller.rb:18-21 | the message is accepted through the authenticated channel, and the answer is 200 |
| Clickatell.ClickatellController.IndexMultipart | app/controllers/clickatell/clickatell_controller.rb:23-53 | the store and accepted messages follow `Multipart`, and the answer is 200 |
| Clickatell.ClickatellController.Accept | app/controllers/clickatell/clickatell_controller.rb:62 | the message is accepted through the controller's channel |
| Outgoing.Position | app/controllers/outgoing_controller.rb:13-15 | the first queue position holding the ETag's GUID, or nil exactly when no entry holds it |
| Outgoing.DeleteUpTo | app/controllers/outgoing_controller.rb:16 | deleting up to an id keeps exactly the entries with greater ids |
| Outgoing.Remaining | app/controllers/outgoing_controller.rb:11-23 | definition: the whole queue without an ETag; with one, the entries after the first that carries it, or none when no entry does |
| Outgoing.StoreAfter | app/controllers/outgoing_controller.rb:11-23 | definition: the queue left after the poll: when the ETag names an entry, every entry whose id is at most that entry's id is deleted; otherwise nothing is |
| Outgoing.SliceEnd | app/controllers/outgoing_controller.rb:27 | `[0...n]` keeps n entries, or all when fewer; a negative n drops that many from the end |
| Outgoing.Truncate | app/controllers/outgoing_controller.rb:26-28 | `max` keeps a prefix: everything without it, and `max.to_i` entries (or all) when it is not negative |
| Outgoing.Guids | app/controllers/outgoing_controller.rb:31 | the GUIDs of the kept entries, position by position |
| Outgoing.Batch | app/controllers/outgoing_controller.rb:33 | definition: the OutMessages whose GUID is among the kept ones, sorted by timestamp |
| Outgoing.ResponseEtag | app/controllers/outgoing_controller.rb:35-37 | an ETag is answered exactly when the batch is not empty, and it is the last message's GUID |
| Outgoing.NoEtagKeepsAll | app/controllers/outgoing_controller.rb:8-11 | without an ETag nothing is deleted and the whole queue is a candidate |
| Outgoing.EtagTrimsQueue | app/controllers/outgoing_controller.rb:12-22 | on an id-ascending queue, acknowledging the entry at k deletes exactly the entries up to k and leaves the rest as candidates |
| Outgoing.FilterAbove | app/controllers/outgoing_controller.rb:16 | on an id-ascending queue, the entries with ids above position k's are those after k |
| Outgoing.UnknownEtagDeliversNothing | app/controllers/outgoing_controller.rb:12-22 | an ETag that names no queued entry deletes nothing and delivers nothing |
| Outgoing.BatchContents | app/controllers/outgoing_controller.rb:33 | the batch holds exactly the OutMessages of the kept GUIDs, each as often as stored, ordered by timestamp |
| Outgoing.MaxExample | app/controllers/outgoing_controller.rb:26-28 | `max` 2 on three entries keeps the first two |
| Outgoing.OutgoingController.Index | app/controllers/outgoing_controller.rb:3-38 | the queue is trimmed by the ETag, and the batch is the capped remaining entries' messages by timestamp, with the last GUID as ETag |
| Outgoing.OutgoingController.Acknowledge | app/controllers/outgoing_controller.rb:11-23 | the queue is trimmed by the ETag, and the remaining candidates are returned |
| Outgoing.OutgoingController.Respond | app/controllers/outgoing_controller.rb:31-37 | the batch holds the kept entries' messages; an ETag is answered exactly when it is not empty, and it is the last GUID |
| Outgoing.OutgoingController.SkipAcknowledged | app/controllers/outgoing_controller.rb:12-22 | the loop finds the acknowledged entry, deletes up to it and returns what follows it, or everything stays when no entry holds the GUID |
| Alerts.FirstOfKind | app/models/alerts/alert_trigger.rb:10 | the first alert of the application and kind, or nil exactly when there is none |
| Alerts.Selected | app/models/alerts/alert_trigger.rb:15 | an existing alert is reused exactly when one of the kind exists and the recipient has a channel, and then it is the first alert of the kind |
| Alerts.Step | app/models/alerts/alert_trigger.rb:15-23 | each recipient gets a new AO message. Either an armed Alert row is created for its channel, or the selected alert is moved to the channel, re-armed and pointed at the message |
| Alerts.Run | app/models/alerts/alert_trigger.rb:14-24 | across the loop, the remembered first alert stays an alert of the kind |
| Alerts.Trigger | app/models/alerts/alert_trigger.rb:8-25 | definition of `alert`: nothing when suppressed, else the loop over the configurations from the first alert of the kind |
| Alerts.SuppressedChangesNothing | app/models/alerts/alert_trigger.rb:9-12 | an alert of the kind that is armed, or was sent less than an hour ago, makes the call change nothing |
| Alerts.PendingIffSuppressed | app/models/alerts/alert_trigger.rb:10-12 | the two selects find something exactly when the call is suppressed |
| Alerts.RunCreatesOneMessageEach | app/models/alerts/alert_trigger.rb:14-16 | the loop creates one AO message per recipient, in order, with consecutive ids |
| Alerts.RunArms | app/models/alerts/alert_trigger.rb:17-23 | after the last recipient, some alert of the kind is armed |
| Alerts.SecondCallSuppressed | app/models/alerts/alert_trigger.rb:11-23 | after an alert is raised for at least one recipient, a second call at any time with the same kind is suppressed |
| Alerts.AssignmentSelectsFirstAlert | app/models/alerts/alert_trigger.rb:15 | with one stored alert and two recipients, no Alert row is created; the one alert ends on the last recipient's channel, armed |
| Alerts.AlertTrigger.Alert | app/models/alerts/alert_trigger.rb:8-25 | the trigger's rows become what the suppression check and the loop over recipients specify |
| Pop3.Kept | app/models/pop3/receive_pop3_message_job.rb:97-101 | the scan keeps stripped lines and stops only at a line that is empty, starts with `>`, or starts with `On` and ends with `:` |
| Pop3.KeptPrefix | app/models/pop3/receive_pop3_message_job.rb:97-101 | every kept line is the stripped line at its place, and none of them stops the scan |
| Pop3.KeptStep | app/models/pop3/receive_pop3_message_job.rb:97-104 | one step of the scan either stops or keeps the line with its line break and goes on |
| Pop3.RemoveQuoted | app/models/pop3/receive_pop3_message_job.rb:95-106 | definition: the stripped text's lines kept up to the first stop line, each followed by a line break, the whole stripped |
| Pop3.RemoveQuotedText | app/models/pop3/receive_pop3_message_job.rb:95-106 | the scan loop returns the stripped join of the lines kept before the first stop line |
| Pop3.KeptAreKeptLines | app/models/pop3/receive_pop3_message_job.rb:97-101 | every kept line is non-empty, has no line break, has no white space at either end and is not a stop line |
| Pop3.StripTerminated | app/models/pop3/receive_pop3_message_job.rb:102-105 | kept lines with their line breaks strip back to their join |
| Pop3.LinesOfJoin | app/models/pop3/receive_pop3_message_job.rb:97 | `lines` cuts the join of kept lines back into them |
| Pop3.KeptRelined | app/models/pop3/receive_pop3_message_job.rb:97-101 | a scan over kept lines keeps all of them |
| Pop3.RemoveQuotedIdempotent | app/models/pop3/receive_pop3_message_job.rb:95-106 | removing quoted text twice removes nothing more |
| Pop3.RemoveQuotedKeepsNoStopLine | app/models/pop3/receive_pop3_message_job.rb:97-105 | no line of the result stops the scan, and the result has no surrounding white space |
| Pop3.HeaderRefs | app/models/pop3/receive_pop3_message_job.rb:70-71 | a blank header gives no references; otherwise the header split on ',' with each part stripped |
| Pop3.StripAll | app/models/pop3/receive_pop3_message_job.rb:71 | each part is stripped |
| Pop3.ApplyRef | app/models/pop3/receive_pop3_message_job.rb:72-78 | as written: a part the guard skips changes nothing; a part with no '@' that ends in `.nuntium>` raises, and only such a part raises |
| Pop3.ApplyRefs | app/models/pop3/receive_pop3_message_job.rb:71-79 | definition: the references applied in order, the first raise ending the loop |
| Pop3.RaiseEndsLoop | app/models/pop3/receive_pop3_message_job.rb:71-79 | once a reference raises, the rest of the header is not read |
| Pop3.ReadReferences | app/models/pop3/receive_pop3_message_job.rb:70-80 | the header is read into the custom attributes, part by part, up to the first raise |
| Pop3.EachReference | app/models/pop3/receive_pop3_message_job.rb:71-79 | the `each` loop applies each reference in turn and leaves at the first raise |
| Pop3.BareReferenceRaises | app/models/pop3/receive_pop3_message_job.rb:72-77 | the header "x.nuntium>" makes the loop as written raise |
| Pop3.ApplyRefFixed | app/models/pop3/receive_pop3_message_job.rb:72-78 | as intended: a part not of the form `<...@...>` changes nothing, and nothing raises |
| Pop3.FixedAgreesWhenNoRaise | app/models/pop3/receive_pop3_message_job.rb:71-79 | wherever the loop as written does not raise, the intended reading gives the same attributes |
| Pop3.ReplyToRoundTrip | app/models/pop3/receive_pop3_message_job.rb:74-75 | a reply reference built from a message GUID reads back as that `reply_to` |
| Pop3.ThreadRoundTrip | app/models/pop3/receive_pop3_message_job.rb:76-77 | a thread reference `<value@key.nuntium>` reads back as `references_key` = value |
| Pop3.ReplyShape | app/models/pop3/receive_pop3_message_job.rb:74-76 | such a reference is a reply reference exactly when its key is `message_id` |
| Pop3.MailAddress | app/models/pop3/receive_pop3_message_job.rb:55-60 | the address has protocol `mailto` and is the first address of the field, or nothing after the scheme when there is none |
| Pop3.MailToMessage | app/models/pop3/receive_pop3_message_job.rb:55-80 | the AT message has the mail's `mailto://` addresses, the body with or without quoted text, the mail's subject, message id and date, and the references read as intended |
| Smpp.BlankError | app/models/smpp/smpp_channel_handler.rb:9-10 | a "can't be blank" error on the field exactly when its value is nil or empty once chomped |
| Smpp.Blank | app/models/smpp/smpp_channel_handler.rb:9-10 | definition: a setting that is nil or empty once a trailing line break is chomped |
| Smpp.PortErrors | app/models/smpp/smpp_channel_handler.rb:12-19 | a nil port is blank, and a port whose `to_i` is not positive is rejected. At most one error, and none exactly for a positive port |
| Smpp.NoErrorsIffValid | app/models/smpp/smpp_channel_handler.rb:8-26 | no error is added exactly when host, user and password are present and the port is positive |
| Smpp.ErrorsPerField | app/models/smpp/smpp_channel_handler.rb:8-26 | each field's error is added exactly when that field fails its check |
| Smpp.PortErrorAtMostOnce | app/models/smpp/smpp_channel_handler.rb:12-19 | the port never draws two errors |
| Smpp.ValidationErrors | app/models/smpp/smpp_channel_handler.rb:8-26 | definition: the host, port, user and password errors, in that order |
| Smpp.Info | app/models/smpp/smpp_channel_handler.rb:48-51 | definition: `user@host:port`, a nil setting reading as empty |
| Smpp.InfoSplits | app/models/smpp/smpp_channel_handler.rb:48-51 | `user@host:port` splits back into the three settings when the user holds no '@' and the host no ':' |
| Smpp.SmppChannelHandler.CheckValid | app/models/smpp/smpp_channel_handler.rb:8-26 | the host, port, user and password errors are appended in that order |
| Xmpp.Jid | app/models/xmpp/xmpp_channel.rb:16-20 | the JID starts with `user@domain` |
| Xmpp.JidSplits | app/models/xmpp/xmpp_channel.rb:16-20 | the JID splits back into user, domain and, when present, resource |
| Xmpp.Server | app/models/xmpp/xmpp_channel.rb:22-24 | the server is nil exactly when the setting is blank, and otherwise the setting |
| Xmpp.PortPart | app/models/xmpp/xmpp_channel.rb:39 | the port is left out of the description exactly when `port.to_i` is 5222 |
| Xmpp.Info | app/models/xmpp/xmpp_channel.rb:38-41 | the description starts with `user@domain` and ends with "/" and the resource |
| Xmpp.InfoPortOmitted | app/models/xmpp/xmpp_channel.rb:38-41 | after the '@', the domain is followed by '/' exactly when the port is the default |
| Xmpp.Unsigned | app/models/xmpp/xmpp_channel.rb:10 | a numeral read is well formed (digits, then a fraction of digits), carries the given sign, and is spelled exactly by the text read |
| Xmpp.UnsignedReads | app/models/xmpp/xmpp_channel.rb:10 | conversely, every well-formed numeral written out reads back as itself |
| Xmpp.Signed | app/models/xmpp/xmpp_channel.rb:10 | a numeral read is well formed and the text is its spelling after "-" when negative, or after "+" or nothing otherwise |
| Xmpp.SignedReads | app/models/xmpp/xmpp_channel.rb:10 | conversely, a signed spelling of a well-formed numeral reads as that numeral |
| Xmpp.ParseNumber | app/models/xmpp/xmpp_channel.rb:10 | a missing port is not a number; a port read as a number is, once stripped, the signed spelling of that well-formed numeral |
| Xmpp.ParseNumberReads | app/models/xmpp/xmpp_channel.rb:10 | conversely, a port whose stripped text is a signed well-formed numeral reads as that numeral |
| Xmpp.Positive | app/models/xmpp/xmpp_channel.rb:10 | definition of `greater_than: 0`: not negative and some digit not '0' |
| Xmpp.PresenceErrors | app/models/xmpp/xmpp_channel.rb:9 | no presence error exactly when user, domain and password are present; each error is "can't be blank" |
| Xmpp.NumericalityErrors | app/models/xmpp/xmpp_channel.rb:10 | at most one port error: none exactly for a number above zero, "is not a number" exactly when it does not read as one |
| Xmpp.ValidationErrors | app/models/xmpp/xmpp_channel.rb:9-10 | definition: the presence errors, then the numericality error |
| Xmpp.ValidIff | app/models/xmpp/xmpp_channel.rb:9-10 | the channel is valid exactly when user, domain and password are present and the port is a number above zero |
| Xmpp.PortRefused | app/models/xmpp/xmpp_channel.rb:10 | a missing port is "not a number"; one that reads as a number not above zero (negative, or zero such as "0" or "0.0") draws "must be greater than 0" |
| Xmpp.DefaultPortAccepted | app/models/xmpp/xmpp_channel.rb:10 | a port "5222" passes the check and is left out of the description |

## Left out

- I/O and infrastructure are not modelled: the HTTP request and response objects and basic-auth parsing, the logger, `Rails.cache`, queue publishing (including `http_post_callback` in `route_at`), cron and the background job queue.
- Persistence is a set of in-memory sequences. Transactions, atomicity and concurrent requests are not modelled, and a failing `save!` is not modelled.
- `RulesEngine.apply`, `infer_custom_attributes` and `MobileNumber.update` are not part of this model. Their combined effect is one attribute map given as a parameter.
- `Channel#can_route_ao?` is a function parameter. `Channel#route_ao` is recorded in a `dispatched` log. The set `raising` names the channels whose `route_ao` raises.
- `Routing.Application.RouteToCandidates`: `channels.rand` is a nondeterministic choice within the lowest tier, with no claim about its distribution.
- `Guid.new` is modelled as a serial counter. Fresh GUIDs are distinct from each other and from submitted ones, but are not random.
- `Time.now` is a parameter.
- `Seqs.SortBy` is a stable insertion sort. Ruby's `sort!` is not stable and the database order of equal timestamps is unspecified, so the model fixes the order of ties that the source leaves open.
- `Text.Split` keeps trailing empty fields, which Ruby's `split` drops. This makes no difference to references: an empty part passes the guard of line 73, since it holds no '@', but it ends in neither suffix, so it changes nothing.
- `Text.Strip` does not strip NUL characters, which Ruby's `strip` removes at the end.
- `Text.ToI` stops at '_', which Ruby's `to_i` skips between digits.
- Xmpp.ParseNumber: accepts only the forms `Kernel.Float` reads that matter here: an optional sign, digits and an optional fraction. Hexadecimal, underscores, exponents and a leading dot are left out.
- Clickatell.Assemble: joins the fragment texts, which is what `Array#to_s` does at line 33 under Ruby 1.8, the version the code was written for. Under Ruby 1.9 and later the same line yields the array's inspect form, which the model does not capture.
- Clickatell: `Iconv` conversion of the text is left out; the text is used as received. `get_timestamp`'s parsing of the time zone is a given integer. `ClickatellUdh.from_string` is not part of this model; the UDH arrives parsed. Looking up the application by id or name is given as its channel list or nil.
- POP3: the POP3 session, SSL, authentication, deleting fetched mail, `Mail` parsing and `get_body` are left out; the body arrives extracted. The message is handed to `Account#route_at` (line 82), which is not part of this model; `Routing.Application.RouteAt` models the application's `route_at`, not the account's. A `References` header that arrives as an array, or with space-separated references, is not modelled.
- Pop3.MailToMessage: reads the references with the corrected reading (see Findings), so it builds a message even for a header where the loop as written raises. There the code builds no message: the rescue at line 89 ends the run, and the `mail.delete` at line 84 is skipped. Where the loop as written does not raise, the two readings agree (`Pop3.FixedAgreesWhenNoRaise`).
- Pop3.ApplyRef: models the raise as `Err`. The rescue in `perform` that ends the whole mailbox run is not modelled beyond that.
- SMPP and XMPP `check_valid_in_ui` open network connections, and are left out. The SMPP handler's other methods have empty or commented-out bodies.
- Alerts: `alerts_for_kind` updates `channel_id` in memory on alerts that are not yet saved. The model applies each update to the stored row at once.

## Findings

| source | as written | input that shows it | evidently intended | confidence | as-written member | corrected member |
|---|---|---|---|---|---|---|
| app/models/pop3/receive_pop3_message_job.rb:73-77 | the guard `ref.start_with?('<') \|\| !at_index` lets a part without '@' through. If it also ends in `.nuntium>`, `at_index + 1` is called on nil, and the `NoMethodError` reaches the rescue of `perform`, which abandons the whole mailbox run | a `References` header "x.nuntium>" | read only parts of the form `<...@...>` and skip the rest | not executed | Pop3.BareReferenceRaises | Pop3.FixedAgreesWhenNoRaise |

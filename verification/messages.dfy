/** The message records the gateway moves between applications and channels. */
module Messages {
  import opened Common

  /**
   * A message GUID: one chosen by the submitter, or one drawn from `Guid.new`,
   * modelled as a fresh serial number so that two drawn GUIDs never collide.
   */
  datatype Guid = Given(text: string) | Generated(serial: nat)

  /**
   * An application-originated message. `id` is nil until the record is
   * saved (Rails' `new_record?`); `customAttributes` holds, among others,
   * `suggested_channel` and `strategy`.
   */
  datatype AoMessage = AoMessage(
    id: Option<int>,
    accountId: Option<int>,
    applicationId: Option<int>,
    guid: Option<Guid>,
    from: Option<string>,
    to: Option<string>,
    subject: Option<string>,
    state: string,
    tries: nat,
    timestamp: Option<int>,
    parentId: Option<int>,
    customAttributes: map<string, string>)

  /** A channel-originated message on its way to an application. */
  datatype AtMessage = AtMessage(
    from: Option<string>,
    to: Option<string>,
    subject: Option<string>,
    body: Option<string>,
    channelRelativeId: Option<string>,
    timestamp: Option<int>,
    customAttributes: map<string, string>,
    applicationId: Option<int>)
}

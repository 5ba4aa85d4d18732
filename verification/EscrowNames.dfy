/** The member names and kind tags of the escrow format, as code units. */
module EscrowNames {
  import opened Utf16

  /** kind */
  const KIND: Text := [107, 105, 110, 100]
  /** version */
  const VERSION: Text := [118, 101, 114, 115, 105, 111, 110]
  /** siteId */
  const SITE_ID: Text := [115, 105, 116, 101, 73, 100]
  /** cutoff */
  const CUTOFF: Text := [99, 117, 116, 111, 102, 102]
  /** policyVersion */
  const POLICY_VERSION: Text := [112, 111, 108, 105, 99, 121, 86, 101, 114, 115, 105, 111, 110]
  /** publicManifestHash */
  const PUBLIC_MANIFEST_HASH: Text := [112, 117, 98, 108, 105, 99, 77, 97, 110, 105, 102, 101, 115, 116, 72, 97, 115, 104]
  /** schemaFingerprint */
  const SCHEMA_FINGERPRINT: Text := [115, 99, 104, 101, 109, 97, 70, 105, 110, 103, 101, 114, 112, 114, 105, 110, 116]
  /** counts */
  const COUNTS: Text := [99, 111, 117, 110, 116, 115]
  /** contentHash */
  const CONTENT_HASH: Text := [99, 111, 110, 116, 101, 110, 116, 72, 97, 115, 104]
  /** batches */
  const BATCHES: Text := [98, 97, 116, 99, 104, 101, 115]
  /** messages */
  const MESSAGES: Text := [109, 101, 115, 115, 97, 103, 101, 115]
  /** errors */
  const ERRORS: Text := [101, 114, 114, 111, 114, 115]
  /** notifications */
  const NOTIFICATIONS: Text := [110, 111, 116, 105, 102, 105, 99, 97, 116, 105, 111, 110, 115]
  /** manifestIndex */
  const MANIFEST_INDEX: Text := [109, 97, 110, 105, 102, 101, 115, 116, 73, 110, 100, 101, 120]
  /** row */
  const ROW: Text := [114, 111, 119]
  /** id */
  const ID: Text := [105, 100]
  /** fromEmail */
  const FROM_EMAIL: Text := [102, 114, 111, 109, 69, 109, 97, 105, 108]
  /** contents */
  const CONTENTS: Text := [99, 111, 110, 116, 101, 110, 116, 115]
  /** batchId */
  const BATCH_ID: Text := [98, 97, 116, 99, 104, 73, 100]
  /** created */
  const CREATED: Text := [99, 114, 101, 97, 116, 101, 100]
  /** messageId */
  const MESSAGE_ID: Text := [109, 101, 115, 115, 97, 103, 101, 73, 100]
  /** toEmail */
  const TO_EMAIL: Text := [116, 111, 69, 109, 97, 105, 108]
  /** newsletterBatchId */
  const NEWSLETTER_BATCH_ID: Text := [110, 101, 119, 115, 108, 101, 116, 116, 101, 114, 66, 97, 116, 99, 104, 73, 100]
  /** formatedContents */
  const FORMATED_CONTENTS: Text := [102, 111, 114, 109, 97, 116, 101, 100, 67, 111, 110, 116, 101, 110, 116, 115]
  /** recipientData */
  const RECIPIENT_DATA: Text := [114, 101, 99, 105, 112, 105, 101, 110, 116, 68, 97, 116, 97]
  /** error */
  const ERROR: Text := [101, 114, 114, 111, 114]
  /** type */
  const TYPE: Text := [116, 121, 112, 101]
  /** notificationId */
  const NOTIFICATION_ID: Text := [110, 111, 116, 105, 102, 105, 99, 97, 116, 105, 111, 110, 73, 100]
  /** rawEvent */
  const RAW_EVENT: Text := [114, 97, 119, 69, 118, 101, 110, 116]
  /** timestamp */
  const TIMESTAMP: Text := [116, 105, 109, 101, 115, 116, 97, 109, 112]

  /** header */
  const KIND_HEADER: Text := [104, 101, 97, 100, 101, 114]
  /** footer */
  const KIND_FOOTER: Text := [102, 111, 111, 116, 101, 114]
  /** newsletterBatch */
  const KIND_NEWSLETTER_BATCH: Text := [110, 101, 119, 115, 108, 101, 116, 116, 101, 114, 66, 97, 116, 99, 104]
  /** newsletterMessages */
  const KIND_NEWSLETTER_MESSAGES: Text := [110, 101, 119, 115, 108, 101, 116, 116, 101, 114, 77, 101, 115, 115, 97, 103, 101, 115]
  /** newsletterErrors */
  const KIND_NEWSLETTER_ERRORS: Text := [110, 101, 119, 115, 108, 101, 116, 116, 101, 114, 69, 114, 114, 111, 114, 115]
  /** newsletterNotifications */
  const KIND_NEWSLETTER_NOTIFICATIONS: Text := [110, 101, 119, 115, 108, 101, 116, 116, 101, 114, 78, 111, 116, 105, 102, 105, 99, 97, 116, 105, 111, 110, 115]
}

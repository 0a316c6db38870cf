/**
 * The values the service worker stores and sends: the 8-column row payload, the write
 * mode, the local-index entry, the offline-queue item and the two settings the
 * Apps Script endpoint needs.
 */
module Records {
  import opened Wrappers

  /** `'append'` or `'update'`: how the Apps Script should write the row. */
  datatype Mode = Append | Update

  /** The row written to the sheet: exactly these 8 named string columns, in this order. */
  datatype Payload = Payload(
    name: string,
    title: string,
    company: string,
    profileUrl: string,
    requestedAt: string,
    followUpDate: string,
    tag: string,
    notes: string)

  /** The row the sheet assigned, as the Apps Script reported it (it may leave it out). */
  type RowId = Option<string>

  /** One local-index entry: `{sheetRowId, lastUpdated}`; `lastUpdated` is an ISO timestamp. */
  datatype Entry = Entry(sheetRowId: RowId, lastUpdated: string)

  /** The local index: profile URL to its entry. */
  type LocalIndex = map<string, Entry>

  /** One pending write: `{payload, mode, timestamp, retryCount}`. */
  datatype QueueItem = QueueItem(payload: Payload, mode: Mode, timestamp: string, retryCount: nat)

  /** The part of the synced settings that `postRow` reads. */
  datatype Settings = Settings(appsScriptUrl: string, token: string)

  /** The initial settings cache: no endpoint URL and no token. */
  const DefaultSettings := Settings("", "")

  /** Both the endpoint URL and the bearer token are non-empty (JavaScript truthiness of a string). */
  predicate Configured(s: Settings) {
    s.appsScriptUrl != "" && s.token != ""
  }

  /** `localIndex[profileUrl] || null`. */
  function Lookup(index: LocalIndex, url: string): (r: Option<Entry>)
    ensures r.Some? <==> url in index
    ensures r.Some? ==> r.value == index[url]
  {
    if url in index then Some(index[url]) else None
  }

  /** `existingProfile ? 'update' : 'append'` after `checkExistingProfile`. */
  function ChooseMode(index: LocalIndex, url: string): (m: Mode)
    ensures m == Update <==> url in index
    ensures m == Append <==> url !in index
  {
    if Lookup(index, url).Some? then Update else Append
  }

  /** After an upsert of `url`, the next save of that profile is an update. */
  lemma UpsertThenUpdate(index: LocalIndex, url: string, e: Entry)
    ensures ChooseMode(index[url := e], url) == Update
    ensures Lookup(index[url := e], url) == Some(e)
  {
  }
}

/** The records of `types/index.ts`, and the JavaScript truthiness test the
    components apply to their optional strings. */
module Types {

  datatype Option<+T> = None | Some(value: T)

  /** The three simulated cloud-storage services. */
  datatype Provider = GoogleDrive | Dropbox | OneDrive

  /** An account's `syncStatus`: "synced", "syncing", "error" or "not-synced". */
  datatype SyncStatus = Synced | Syncing | Error | NotSynced

  /** A file's `type` tag. */
  datatype FileKind = Pdf | Doc | Image | Spreadsheet | Other | Zip | Rar | Audio | Video

  datatype CloudAccount = CloudAccount(
    id: string,
    name: string,
    provider: Provider,
    email: string,
    syncStatus: SyncStatus,
    lastSynced: Option<string>,
    errorMessage: Option<string>)

  datatype FileItem = FileItem(
    id: string,
    name: string,
    kind: FileKind,
    provider: Provider,
    accountName: string,
    accountEmail: Option<string>,
    snippet: Option<string>,
    lastAccessed: string,
    url: string,
    thumbnail: Option<string>)

  /** A calendar date; no arithmetic is done on it, so it is kept opaque. */
  datatype Date = Date(epochMillis: int)

  datatype DateRange = DateRange(from: Option<Date>, to: Option<Date>)

  /** The search filters; every part is optional, `{}` is "no filter". */
  datatype SearchFilters = SearchFilters(
    fileType: Option<seq<string>>,
    dateRange: Option<DateRange>,
    provider: Option<seq<string>>)

  /** What the Sync, Disconnect and Add Account buttons hand to their callbacks. */
  datatype AccountAction = SyncRequested(accountId: string) | DisconnectRequested(accountId: string) | AddAccountRequested

  /** JavaScript truthiness of an optional string: absent and "" are both false. */
  predicate Truthy(s: Option<string>)
  {
    s.Some? && s.value != ""
  }
}

/** `components/account-row.tsx`: the grid of account tiles, each with its
    header status icon, status line and Disconnect/Sync buttons. */
module AccountRow {
  import opened Types
  import AccountCard
  import MockData

  /** The header icon is rendered by three guarded expressions, one per
      status; a not-synced account gets none. */
  predicate HeaderIconShown(status: SyncStatus)
    ensures HeaderIconShown(status) <==> status != NotSynced
  {
    status == Synced || status == Syncing || status == Error
  }

  /** The status line under the account's e-mail. `formatDate` stands for
      `new Date(lastSynced).toLocaleDateString()`. */
  function StatusLine(a: CloudAccount, formatDate: string -> string): (r: Option<string>)
    ensures r == None <==> a.syncStatus == NotSynced
    ensures a.syncStatus == Synced ==>
      r == Some("Last synced: " + (if Truthy(a.lastSynced) then formatDate(a.lastSynced.value) else "Never"))
    ensures a.syncStatus == Syncing ==> r == Some("Syncing...")
    ensures a.syncStatus == Error ==>
      r == Some(if Truthy(a.errorMessage) then a.errorMessage.value else "Sync error")
  {
    match a.syncStatus
    case Synced => Some("Last synced: " + (if Truthy(a.lastSynced) then formatDate(a.lastSynced.value) else "Never"))
    case Syncing => Some("Syncing...")
    case Error => Some(if Truthy(a.errorMessage) then a.errorMessage.value else "Sync error")
    case NotSynced => None
  }

  /** A not-synced account shows neither a header icon nor a status line;
      every other status shows both. */
  lemma QuietExactlyWhenNotSynced(a: CloudAccount, formatDate: string -> string)
    ensures !HeaderIconShown(a.syncStatus) <==> a.syncStatus == NotSynced
    ensures StatusLine(a, formatDate) == None <==> !HeaderIconShown(a.syncStatus)
  {
  }

  /** `disabled={account.syncStatus === "syncing"}` on the tile's Sync button. */
  predicate SyncDisabled(a: CloudAccount)
    ensures SyncDisabled(a) <==> AccountCard.SyncDisabled(a)
  {
    a.syncStatus == Syncing
  }

  /** The tile and the card guard Sync identically, and show the same words
      while syncing and on error. They differ on the other two statuses: the
      card says "Not synced" where the tile shows nothing, and the two format
      the last sync time differently. */
  lemma AgreesWithCard(a: CloudAccount, relative: string -> string, formatDate: string -> string)
    ensures SyncDisabled(a) <==> AccountCard.SyncDisabled(a)
    ensures a.syncStatus == Syncing || a.syncStatus == Error ==>
      StatusLine(a, formatDate) == Some(AccountCard.StatusText(a, relative))
    ensures a.syncStatus == NotSynced ==>
      StatusLine(a, formatDate) == None && AccountCard.StatusText(a, relative) == "Not synced"
  {
  }

  /** One cell of the grid. */
  datatype Tile =
    | AddAccountTile
    | AccountTile(account: CloudAccount, headerIcon: bool, statusLine: Option<string>, syncDisabled: bool)

  function TileFor(a: CloudAccount, formatDate: string -> string): Tile
  {
    AccountTile(a, HeaderIconShown(a.syncStatus), StatusLine(a, formatDate), SyncDisabled(a))
  }

  /** The grid: the Add Account button first, then `accounts.map(...)`. */
  function Tiles(accounts: seq<CloudAccount>, formatDate: string -> string): (r: seq<Tile>)
    ensures |r| == |accounts| + 1
    ensures r[0] == AddAccountTile
    ensures forall i :: 0 <= i < |accounts| ==>
      r[i + 1].AccountTile? && r[i + 1].account == accounts[i]
      && r[i + 1].syncDisabled == (accounts[i].syncStatus == Syncing)
      && r[i + 1].headerIcon == HeaderIconShown(accounts[i].syncStatus)
      && r[i + 1].statusLine == StatusLine(accounts[i], formatDate)
    ensures forall i :: 1 <= i < |r| ==> r[i] != AddAccountTile
  {
    [AddAccountTile] + seq(|accounts|, i requires 0 <= i < |accounts| => TileFor(accounts[i], formatDate))
  }

  /** A press on some button of the grid, addressed by the account's position. */
  datatype RowPress = PressAddAccount | PressDisconnect(index: nat) | PressSync(index: nat)

  /** The callback a press reaches: `onAddAccount`, or `onDisconnect` /
      `onSync` with the id of the account the tile was built from. */
  function Press(accounts: seq<CloudAccount>, press: RowPress): (r: Option<AccountAction>)
    ensures press == PressAddAccount ==> r == Some(AddAccountRequested)
    ensures press.PressDisconnect? ==>
      (r != None <==> press.index < |accounts|)
      && (r != None ==> r.value == DisconnectRequested(accounts[press.index].id))
    ensures press.PressSync? ==>
      (r != None <==> press.index < |accounts| && accounts[press.index].syncStatus != Syncing)
      && (r != None ==> r.value == SyncRequested(accounts[press.index].id))
  {
    match press
    case PressAddAccount => Some(AddAccountRequested)
    case PressDisconnect(i) =>
      if i < |accounts| then Some(DisconnectRequested(accounts[i].id)) else None
    case PressSync(i) =>
      if i < |accounts| && !SyncDisabled(accounts[i]) then Some(SyncRequested(accounts[i].id)) else None
  }

  /** The fixture's three accounts as the grid shows them: the synced one
      with its date, the syncing one with Sync disabled, and the failing one
      with its own error message. */
  lemma FixtureTiles(formatDate: string -> string)
    ensures |Tiles(MockData.MockAccounts, formatDate)| == 4
    ensures Tiles(MockData.MockAccounts, formatDate)[1].statusLine
      == Some("Last synced: " + formatDate("2023-06-15T10:31:00Z"))
    ensures Tiles(MockData.MockAccounts, formatDate)[2].syncDisabled
      && Tiles(MockData.MockAccounts, formatDate)[2].statusLine == Some("Syncing...")
    ensures !Tiles(MockData.MockAccounts, formatDate)[3].syncDisabled
      && Tiles(MockData.MockAccounts, formatDate)[3].statusLine == Some("Authentication failed. Please reconnect.")
    ensures forall i :: 1 <= i < 4 ==> Tiles(MockData.MockAccounts, formatDate)[i].headerIcon
  {
    var t := Tiles(MockData.MockAccounts, formatDate);
    assert t[1] == TileFor(MockData.MockAccounts[0], formatDate);
    assert t[2] == TileFor(MockData.MockAccounts[1], formatDate);
    assert t[3] == TileFor(MockData.MockAccounts[2], formatDate);
  }
}

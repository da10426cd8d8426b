/** `components/account-card.tsx`: the status text of one connected account,
    the Sync guard and the two buttons' callbacks. */
module AccountCard {
  import opened Types

  /** `getStatusText`. `relative` stands for date-fns' `formatDistanceToNow`
      applied to the parsed `lastSynced` timestamp (with `addSuffix`). */
  function StatusText(a: CloudAccount, relative: string -> string): (r: string)
    ensures a.syncStatus == Synced ==>
      r == "Synced " + (if Truthy(a.lastSynced) then relative(a.lastSynced.value) else "")
    ensures a.syncStatus == Syncing ==> r == "Syncing..."
    ensures a.syncStatus == Error ==>
      r == (if Truthy(a.errorMessage) then a.errorMessage.value else "Sync error")
    ensures a.syncStatus == NotSynced ==> r == "Not synced"
  {
    match a.syncStatus
    case Synced => "Synced " + (if Truthy(a.lastSynced) then relative(a.lastSynced.value) else "")
    case Syncing => "Syncing..."
    case Error => if Truthy(a.errorMessage) then a.errorMessage.value else "Sync error"
    case NotSynced => "Not synced"
  }

  /** Every status yields some text: a card never shows an empty status. */
  lemma StatusTextNonEmpty(a: CloudAccount, relative: string -> string)
    ensures StatusText(a, relative) != ""
  {
    match a.syncStatus
    case Synced =>
      assert StatusText(a, relative)[0] == 'S';
    case Syncing =>
    case Error =>
    case NotSynced =>
  }

  /** The text reads only the status and the one field that status uses:
      `lastSynced` when synced, `errorMessage` on error, nothing otherwise. */
  lemma StatusTextDependsOnlyOnStatus(a: CloudAccount, b: CloudAccount, relative: string -> string)
    requires a.syncStatus == b.syncStatus
    requires a.syncStatus == Synced ==> a.lastSynced == b.lastSynced
    requires a.syncStatus == Error ==> a.errorMessage == b.errorMessage
    ensures StatusText(a, relative) == StatusText(b, relative)
  {
  }

  /** `disabled={account.syncStatus === "syncing"}` on the Sync button. */
  predicate SyncDisabled(a: CloudAccount)
    ensures SyncDisabled(a) <==> a.syncStatus == Syncing
  {
    a.syncStatus == Syncing
  }

  datatype CardButton = SyncButton | DisconnectButton

  /** The callback a press on one of the card's buttons reaches; a disabled
      Sync button reaches none. */
  function Press(a: CloudAccount, button: CardButton): (r: Option<AccountAction>)
    ensures r == None <==> (button == SyncButton && a.syncStatus == Syncing)
    ensures button == SyncButton && r != None ==> r.value == SyncRequested(a.id)
    ensures button == DisconnectButton ==> r == Some(DisconnectRequested(a.id))
  {
    match button
    case SyncButton => if SyncDisabled(a) then None else Some(SyncRequested(a.id))
    case DisconnectButton => Some(DisconnectRequested(a.id))
  }
}
